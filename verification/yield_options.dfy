/**
 * The ranking of yield options: the USDC vaults on Morpho, each reward scored by the market
 * quality of its token on Uniswap and Aerodrome, the vaults ranked by risk-adjusted APY; then
 * the static Spark option, and the concatenation of both lists.
 */
module YieldOptions {
  import opened Wrappers
  import opened Seqs
  import opened Quality
  import ApiUniswap
  import Morpho

  type Token = ApiUniswap.Token

  /** The asset of a reward as a yield option reports it (the Morpho asset without id and tags). */
  datatype Asset = Asset(
    address: string,
    decimals: int,
    name: string,
    symbol: string,
    logoURI: Option<string>,
    totalSupply: int,
    priceUsd: Option<real>,
    oraclePriceUsd: Option<real>,
    spotPriceEth: Option<real>)

  datatype YieldOptionReward = YieldOptionReward(
    asset: Asset,
    apy: real,
    riskAdjustedApy: real,
    uniswapTotalValueLockedUSD: Option<real>,
    uniswapVolumeUSD: Option<real>,
    uniswapTxCount: Option<int>,
    uniswapRiskFactor: real,
    aerodromeTotalValueLockedUSD: Option<real>,
    aerodromeVolumeUSD: Option<real>,
    aerodromeTxCount: Option<int>,
    aerodromeRiskFactor: real)

  /** A ranked yield option; `creationDate` is kept as the Unix timestamp it is built from. */
  datatype YieldOption = YieldOption(
    name: string,
    symbol: string,
    address: string,
    totalDepositsUsd: real,
    totalDeposits: real,
    creationDate: int,
    totalApy: real,
    baseApy: real,
    riskAdjustedApy: real,
    rewards: seq<YieldOptionReward>)

  /**
   * What the ranking reads from outside, for the chain it runs on: the USDC asset (found by
   * symbol), the vaults of an asset address, and the Uniswap and Aerodrome token lookups,
   * each a value or the exception it raised.
   */
  datatype Upstream = Upstream(
    usdcAsset: Result<Morpho.Asset>,
    vaultsOf: string -> Result<seq<Morpho.Vault>>,
    uniswapToken: string -> Result<Token>,
    aerodromeToken: string -> Result<Token>)

  function OptionAsset(a: Morpho.Asset): Asset {
    Asset(a.address, a.decimals, a.name, a.symbol, a.logoURI, a.totalSupply, a.priceUsd, a.oraclePriceUsd, a.spotPriceEth)
  }

  // ---------------------------------------------------------------------------
  // allRewardAssets
  // ---------------------------------------------------------------------------

  /**
   * A dict from address to asset: the keys in first-insertion order and the entries. Setting
   * an existing key replaces its value and keeps its position.
   */
  datatype AssetIndex = AssetIndex(keys: seq<string>, assets: map<string, Morpho.Asset>)

  /** The keys are distinct and are exactly the entries' addresses; each entry sits under its own address. */
  ghost predicate ValidIndex(idx: AssetIndex) {
    && (forall k :: k in idx.assets <==> k in idx.keys)
    && (forall i, j :: 0 <= i < j < |idx.keys| ==> idx.keys[i] != idx.keys[j])
    && (forall k :: k in idx.assets ==> idx.assets[k].address == k)
  }

  /** `allRewardAssets[asset.address] = asset`. */
  function Register(idx: AssetIndex, asset: Morpho.Asset): AssetIndex {
    if asset.address in idx.assets then idx.(assets := idx.assets[asset.address := asset])
    else AssetIndex(idx.keys + [asset.address], idx.assets[asset.address := asset])
  }

  /** The index after registering the assets in order. */
  function IndexOf(assets: seq<Morpho.Asset>): AssetIndex {
    if |assets| == 0 then AssetIndex([], map[])
    else Register(IndexOf(assets[..|assets| - 1]), assets[|assets| - 1])
  }

  /** i is the last position of its address among the assets. */
  ghost predicate LastWith(assets: seq<Morpho.Asset>, i: int) {
    0 <= i < |assets| && forall j :: i < j < |assets| ==> assets[j].address != assets[i].address
  }

  /** The index of a list of assets is valid. */
  lemma {:induction false} IndexOfValid(assets: seq<Morpho.Asset>)
    ensures ValidIndex(IndexOf(assets))
  {
    if |assets| > 0 {
      IndexOfValid(assets[..|assets| - 1]);
    }
  }

  /** The keys of the index of a list of assets are exactly the assets' addresses. */
  lemma {:induction false} IndexOfKeys(assets: seq<Morpho.Asset>)
    ensures forall i :: 0 <= i < |assets| ==> assets[i].address in IndexOf(assets).assets
    ensures forall k :: k in IndexOf(assets).assets ==> exists i :: 0 <= i < |assets| && assets[i].address == k
  {
    if |assets| > 0 {
      var init, last := assets[..|assets| - 1], assets[|assets| - 1];
      IndexOfKeys(init);
      forall i | 0 <= i < |assets| ensures assets[i].address in IndexOf(assets).assets {
        if i < |init| {
          assert init[i] == assets[i];
        }
      }
      forall k | k in IndexOf(assets).assets
        ensures exists i :: 0 <= i < |assets| && assets[i].address == k
      {
        if k != last.address {
          var i :| 0 <= i < |init| && init[i].address == k;
          assert assets[i].address == k;
        } else {
          assert assets[|assets| - 1].address == k;
        }
      }
    }
  }

  /** Each address of the index holds the last asset registered under it. */
  lemma {:induction false} IndexOfLastWins(assets: seq<Morpho.Asset>)
    ensures forall i :: LastWith(assets, i) ==>
              assets[i].address in IndexOf(assets).assets && IndexOf(assets).assets[assets[i].address] == assets[i]
  {
    if |assets| > 0 {
      var init := assets[..|assets| - 1];
      IndexOfLastWins(init);
      forall i | LastWith(assets, i)
        ensures assets[i].address in IndexOf(assets).assets && IndexOf(assets).assets[assets[i].address] == assets[i]
      {
        if i < |init| {
          assert LastWith(init, i);
        }
      }
    }
  }

  /**
   * Insertion order: registering more assets never moves or removes a key, so the keys of a
   * prefix of the assets are a prefix of the keys of all of them.
   */
  lemma {:induction false} IndexOfKeysPrefix(assets: seq<Morpho.Asset>, n: nat)
    requires n <= |assets|
    ensures IndexOf(assets[..n]).keys <= IndexOf(assets).keys
    decreases |assets|
  {
    if n < |assets| {
      var init := assets[..|assets| - 1];
      assert init[..n] == assets[..n];
      IndexOfKeysPrefix(init, n);
    } else {
      assert assets[..n] == assets;
    }
  }

  /** A new address is appended after every key registered before it. */
  lemma IndexOfNewKeyLast(assets: seq<Morpho.Asset>, asset: Morpho.Asset)
    requires forall i :: 0 <= i < |assets| ==> assets[i].address != asset.address
    ensures IndexOf(assets + [asset]).keys == IndexOf(assets).keys + [asset.address]
  {
    IndexOfKeys(assets);
    assert (assets + [asset])[..|assets|] == assets;
  }

  /** The reward assets of the given reward lines, in order. */
  function AssetsOf(rewards: seq<Morpho.VaultReward>): (r: seq<Morpho.Asset>)
    ensures |r| == |rewards|
    ensures forall i :: 0 <= i < |rewards| ==> r[i] == rewards[i].asset
  {
    if |rewards| == 0 then []
    else AssetsOf(rewards[..|rewards| - 1]) + [rewards[|rewards| - 1].asset]
  }

  /** The reward assets of all vaults, vault after vault. */
  function RewardAssetList(vaults: seq<Morpho.Vault>): seq<Morpho.Asset> {
    if |vaults| == 0 then []
    else RewardAssetList(vaults[..|vaults| - 1]) + AssetsOf(vaults[|vaults| - 1].rewardApys)
  }

  /** `allRewardAssets` after the update loop over the vaults. */
  function RewardAssets(vaults: seq<Morpho.Vault>): AssetIndex {
    IndexOf(RewardAssetList(vaults))
  }

  lemma {:induction false} RewardAssetListContains(vaults: seq<Morpho.Vault>, i: nat, j: nat)
    requires i < |vaults| && j < |vaults[i].rewardApys|
    ensures vaults[i].rewardApys[j].asset in RewardAssetList(vaults)
  {
    var init := vaults[..|vaults| - 1];
    if i < |vaults| - 1 {
      assert vaults[i] == init[i];
      RewardAssetListContains(init, i, j);
    } else {
      assert AssetsOf(vaults[i].rewardApys)[j] == vaults[i].rewardApys[j].asset;
    }
  }

  /** Every reward address of every vault is a key of `allRewardAssets`, and the index is valid. */
  lemma RewardAssetsCover(vaults: seq<Morpho.Vault>)
    ensures ValidIndex(RewardAssets(vaults))
    ensures forall i, j :: 0 <= i < |vaults| && 0 <= j < |vaults[i].rewardApys| ==>
              vaults[i].rewardApys[j].asset.address in RewardAssets(vaults).assets
  {
    var all := RewardAssetList(vaults);
    IndexOfValid(all);
    IndexOfKeys(all);
    forall i, j | 0 <= i < |vaults| && 0 <= j < |vaults[i].rewardApys|
      ensures vaults[i].rewardApys[j].asset.address in RewardAssets(vaults).assets
    {
      RewardAssetListContains(vaults, i, j);
      var n :| 0 <= n < |all| && all[n] == vaults[i].rewardApys[j].asset;
    }
  }

  lemma IndexOfAppend(assets: seq<Morpho.Asset>, asset: Morpho.Asset)
    ensures IndexOf(assets + [asset]) == Register(IndexOf(assets), asset)
  {
    assert (assets + [asset])[..|assets|] == assets;
  }

  /**
   * The `allRewardAssets.update` loop: every reward asset of every vault is registered under its
   * address, vault after vault and reward after reward.
   */
  method CollectRewardAssets(vaults: seq<Morpho.Vault>) returns (allRewardAssets: AssetIndex)
    ensures allRewardAssets == RewardAssets(vaults)
  {
    allRewardAssets := AssetIndex([], map[]);
    for i := 0 to |vaults|
      invariant allRewardAssets == IndexOf(RewardAssetList(vaults[..i]))
    {
      var rewardApys := vaults[i].rewardApys;
      var before := RewardAssetList(vaults[..i]);
      assert before + AssetsOf(rewardApys[..0]) == before;
      for j := 0 to |rewardApys|
        invariant allRewardAssets == IndexOf(before + AssetsOf(rewardApys[..j]))
      {
        assert AssetsOf(rewardApys[..j + 1]) == AssetsOf(rewardApys[..j]) + [rewardApys[j].asset];
        assert before + AssetsOf(rewardApys[..j + 1]) == (before + AssetsOf(rewardApys[..j])) + [rewardApys[j].asset];
        IndexOfAppend(before + AssetsOf(rewardApys[..j]), rewardApys[j].asset);
        allRewardAssets := Register(allRewardAssets, rewardApys[j].asset);
      }
      assert rewardApys[..|rewardApys|] == rewardApys;
      assert vaults[..i + 1][..i] == vaults[..i];
    }
    assert vaults[..|vaults|] == vaults;
  }

  // ---------------------------------------------------------------------------
  // Token maps
  // ---------------------------------------------------------------------------

  /** `token if isinstance(token, Token) else None`. */
  function AsToken(r: Result<Token>): Option<Token> {
    if r.Ok? then Some(r.value) else None
  }

  /** `dict(zip(keys, [AsToken(t) for t in gather(lookup(k) for k in keys)]))`. */
  function TokenMap(keys: seq<string>, lookup: string -> Result<Token>): map<string, Option<Token>> {
    Zip(keys, Map(Map(keys, lookup), AsToken))
  }

  /** `tokensMap.get(address)`. */
  function Lookup(tokens: map<string, Option<Token>>, address: string): Option<Token> {
    if address in tokens then tokens[address] else None
  }

  /**
   * With distinct keys, each key maps to its own lookup's token, None when that lookup raised;
   * one failed lookup affects no other key.
   */
  lemma TokenMapAt(keys: seq<string>, lookup: string -> Result<Token>, i: nat)
    requires i < |keys|
    requires forall a, b :: 0 <= a < b < |keys| ==> keys[a] != keys[b]
    ensures Lookup(TokenMap(keys, lookup), keys[i]) == AsToken(lookup(keys[i]))
  {
    ZipAt(keys, Map(Map(keys, lookup), AsToken), i);
  }

  // ---------------------------------------------------------------------------
  // Scoring
  // ---------------------------------------------------------------------------

  function TvlOf(token: Option<Token>): Option<real> {
    if token.Some? then Some(token.value.totalValueLockedUSD) else None
  }

  function VolumeOf(token: Option<Token>): Option<real> {
    if token.Some? then Some(token.value.volumeUSD) else None
  }

  function TxCountOf(token: Option<Token>): Option<int> {
    if token.Some? then Some(token.value.txCount) else None
  }

  /**
   * One reward of a vault, scored: its APY scaled by the better quality factor of its token's two
   * markets, both factors recorded, and each market's metrics present exactly when that market
   * knows the token.
   */
  function ScoreReward(reward: Morpho.VaultReward, uniswapTokens: map<string, Option<Token>>,
                       aerodromeTokens: map<string, Option<Token>>): (y: YieldOptionReward)
    ensures y.asset == OptionAsset(reward.asset) && y.apy == reward.apy
    ensures y.uniswapRiskFactor == TokenQualityFactor(Lookup(uniswapTokens, reward.asset.address))
    ensures y.aerodromeRiskFactor == TokenQualityFactor(Lookup(aerodromeTokens, reward.asset.address))
    ensures y.riskAdjustedApy == AdjustedApy(reward.apy, y.uniswapRiskFactor, y.aerodromeRiskFactor)
    ensures var u := Lookup(uniswapTokens, reward.asset.address);
            && (y.uniswapTotalValueLockedUSD.None? <==> u.None?)
            && (y.uniswapVolumeUSD.None? <==> u.None?)
            && (y.uniswapTxCount.None? <==> u.None?)
            && (u.Some? ==> && y.uniswapTotalValueLockedUSD == Some(u.value.totalValueLockedUSD)
                            && y.uniswapVolumeUSD == Some(u.value.volumeUSD)
                            && y.uniswapTxCount == Some(u.value.txCount))
    ensures var a := Lookup(aerodromeTokens, reward.asset.address);
            && (y.aerodromeTotalValueLockedUSD.None? <==> a.None?)
            && (y.aerodromeVolumeUSD.None? <==> a.None?)
            && (y.aerodromeTxCount.None? <==> a.None?)
            && (a.Some? ==> && y.aerodromeTotalValueLockedUSD == Some(a.value.totalValueLockedUSD)
                            && y.aerodromeVolumeUSD == Some(a.value.volumeUSD)
                            && y.aerodromeTxCount == Some(a.value.txCount))
  {
    var uniswapToken := Lookup(uniswapTokens, reward.asset.address);
    var aerodromeToken := Lookup(aerodromeTokens, reward.asset.address);
    var uniswapFactor := TokenQualityFactor(uniswapToken);
    var aerodromeFactor := TokenQualityFactor(aerodromeToken);
    YieldOptionReward(
      OptionAsset(reward.asset), reward.apy, AdjustedApy(reward.apy, uniswapFactor, aerodromeFactor),
      TvlOf(uniswapToken), VolumeOf(uniswapToken), TxCountOf(uniswapToken), uniswapFactor,
      TvlOf(aerodromeToken), VolumeOf(aerodromeToken), TxCountOf(aerodromeToken), aerodromeFactor)
  }

  /** A scored reward's adjusted APY lies between 0 and the reward's APY. */
  lemma ScoreRewardBetween(reward: Morpho.VaultReward, uniswapTokens: map<string, Option<Token>>,
                           aerodromeTokens: map<string, Option<Token>>)
    ensures reward.apy >= 0.0 ==> 0.0 <= ScoreReward(reward, uniswapTokens, aerodromeTokens).riskAdjustedApy <= reward.apy
    ensures reward.apy <= 0.0 ==> reward.apy <= ScoreReward(reward, uniswapTokens, aerodromeTokens).riskAdjustedApy <= 0.0
  {
    var y := ScoreReward(reward, uniswapTokens, aerodromeTokens);
    AdjustedApyBetween(reward.apy, y.uniswapRiskFactor, y.aerodromeRiskFactor);
  }

  /** A reward whose token neither market knows is adjusted to 0. */
  lemma ScoreRewardUnknown(reward: Morpho.VaultReward, uniswapTokens: map<string, Option<Token>>,
                           aerodromeTokens: map<string, Option<Token>>)
    requires Lookup(uniswapTokens, reward.asset.address).None? && Lookup(aerodromeTokens, reward.asset.address).None?
    ensures ScoreReward(reward, uniswapTokens, aerodromeTokens).riskAdjustedApy == 0.0
  {
    var y := ScoreReward(reward, uniswapTokens, aerodromeTokens);
    AdjustedApyBetween(reward.apy, y.uniswapRiskFactor, y.aerodromeRiskFactor);
  }

  /** The scored rewards, parallel to the vault's reward lines. */
  function ScoreRewards(rewards: seq<Morpho.VaultReward>, uniswapTokens: map<string, Option<Token>>,
                        aerodromeTokens: map<string, Option<Token>>): (ys: seq<YieldOptionReward>)
    ensures |ys| == |rewards|
    ensures forall i :: 0 <= i < |rewards| ==> ys[i] == ScoreReward(rewards[i], uniswapTokens, aerodromeTokens)
  {
    if |rewards| == 0 then []
    else [ScoreReward(rewards[0], uniswapTokens, aerodromeTokens)] + ScoreRewards(rewards[1..], uniswapTokens, aerodromeTokens)
  }

  /** The sum of the rewards' risk-adjusted APYs. */
  function SumRisk(ys: seq<YieldOptionReward>): real {
    if |ys| == 0 then 0.0 else ys[0].riskAdjustedApy + SumRisk(ys[1..])
  }

  lemma {:induction false} SumRiskAppend(ys: seq<YieldOptionReward>, y: YieldOptionReward)
    ensures SumRisk(ys + [y]) == SumRisk(ys) + y.riskAdjustedApy
  {
    if |ys| > 0 {
      assert (ys + [y])[1..] == ys[1..] + [y];
      SumRiskAppend(ys[1..], y);
    }
  }

  /** A vault as a yield option: its scored rewards, and the base APY plus their adjusted APYs. */
  function OptionFor(vault: Morpho.Vault, uniswapTokens: map<string, Option<Token>>,
                     aerodromeTokens: map<string, Option<Token>>): YieldOption {
    var rewards := ScoreRewards(vault.rewardApys, uniswapTokens, aerodromeTokens);
    YieldOption(vault.name, vault.symbol, vault.address, vault.totalDepositsUsd, vault.totalDeposits,
                vault.creationTimestamp, vault.totalApy, vault.baseApy, vault.baseApy + SumRisk(rewards), rewards)
  }

  /** With non-negative reward APYs, the adjusted rewards add up to between 0 and the rewards' APYs. */
  lemma {:induction false} SumRiskBetween(rewards: seq<Morpho.VaultReward>, uniswapTokens: map<string, Option<Token>>,
                                          aerodromeTokens: map<string, Option<Token>>)
    requires forall i :: 0 <= i < |rewards| ==> rewards[i].apy >= 0.0
    ensures 0.0 <= SumRisk(ScoreRewards(rewards, uniswapTokens, aerodromeTokens)) <= Morpho.SumApy(rewards)
  {
    if |rewards| > 0 {
      var ys := ScoreRewards(rewards, uniswapTokens, aerodromeTokens);
      assert ys[1..] == ScoreRewards(rewards[1..], uniswapTokens, aerodromeTokens);
      ScoreRewardBetween(rewards[0], uniswapTokens, aerodromeTokens);
      SumRiskBetween(rewards[1..], uniswapTokens, aerodromeTokens);
    }
  }

  /** With no token known in either market, every adjusted reward is 0. */
  lemma {:induction false} SumRiskUnknown(rewards: seq<Morpho.VaultReward>, uniswapTokens: map<string, Option<Token>>,
                                          aerodromeTokens: map<string, Option<Token>>)
    requires forall i :: 0 <= i < |rewards| ==>
               Lookup(uniswapTokens, rewards[i].asset.address).None? && Lookup(aerodromeTokens, rewards[i].asset.address).None?
    ensures SumRisk(ScoreRewards(rewards, uniswapTokens, aerodromeTokens)) == 0.0
  {
    if |rewards| > 0 {
      var ys := ScoreRewards(rewards, uniswapTokens, aerodromeTokens);
      assert ys[1..] == ScoreRewards(rewards[1..], uniswapTokens, aerodromeTokens);
      ScoreRewardUnknown(rewards[0], uniswapTokens, aerodromeTokens);
      SumRiskUnknown(rewards[1..], uniswapTokens, aerodromeTokens);
    }
  }

  /**
   * For a vault whose APYs decompose (`totalApy == baseApy + sum of reward APYs`, as every vault
   * of `list_vaults` does) and whose reward APYs are non-negative, the risk-adjusted APY lies
   * between the base APY and the total APY; with no reward token known it is the base APY.
   */
  lemma OptionRiskBetween(vault: Morpho.Vault, uniswapTokens: map<string, Option<Token>>,
                          aerodromeTokens: map<string, Option<Token>>)
    requires vault.totalApy == vault.baseApy + Morpho.SumApy(vault.rewardApys)
    requires forall i :: 0 <= i < |vault.rewardApys| ==> vault.rewardApys[i].apy >= 0.0
    ensures var o := OptionFor(vault, uniswapTokens, aerodromeTokens);
            o.baseApy <= o.riskAdjustedApy <= o.totalApy
    ensures (forall i :: 0 <= i < |vault.rewardApys| ==>
               Lookup(uniswapTokens, vault.rewardApys[i].asset.address).None?
               && Lookup(aerodromeTokens, vault.rewardApys[i].asset.address).None?)
            ==> OptionFor(vault, uniswapTokens, aerodromeTokens).riskAdjustedApy == vault.baseApy
  {
    SumRiskBetween(vault.rewardApys, uniswapTokens, aerodromeTokens);
    if forall i :: 0 <= i < |vault.rewardApys| ==>
         Lookup(uniswapTokens, vault.rewardApys[i].asset.address).None?
         && Lookup(aerodromeTokens, vault.rewardApys[i].asset.address).None? {
      SumRiskUnknown(vault.rewardApys, uniswapTokens, aerodromeTokens);
    }
  }

  /**
   * The non-negative reward APYs that OptionRiskBetween asks for are not implied by the
   * decomposition: `list_vaults` synthesises the MORPHO line as `netApy - netApyWithoutRewards -
   * sum of supplyApr`, which is negative whenever the reported rewards exceed the APY they account
   * for. A negative line on an unknown token is adjusted to 0, while a positive line on a
   * well-traded token keeps its APY, so the risk-adjusted APY can then exceed the total APY.
   */
  lemma NegativeRewardExceedsTotal(morphoAsset: Morpho.Asset, asset: Morpho.Asset, token: Token)
    requires morphoAsset.address != asset.address
    requires token.totalValueLockedUSD >= GOOD_TVL_USD && token.volumeUSD >= GOOD_VOLUME_USD
    requires token.txCount >= GOOD_TX_COUNT
    ensures var vault := Morpho.Vault("", "", "", 0.0, 0.0, 0, 1.0, 1.0,
                                      [Morpho.VaultReward(morphoAsset, -0.5), Morpho.VaultReward(asset, 0.5)]);
            && vault.totalApy == vault.baseApy + Morpho.SumApy(vault.rewardApys)
            && OptionFor(vault, map[asset.address := Some(token)], map[]).riskAdjustedApy == 1.5
            && OptionFor(vault, map[asset.address := Some(token)], map[]).riskAdjustedApy > vault.totalApy
  {
    var lines := [Morpho.VaultReward(morphoAsset, -0.5), Morpho.VaultReward(asset, 0.5)];
    var u: map<string, Option<Token>> := map[asset.address := Some(token)];
    var a: map<string, Option<Token>> := map[];
    assert lines[1..] == [lines[1]] && lines[1..][1..] == [];
    assert Morpho.SumApy(lines[1..]) == 0.5;
    assert Morpho.SumApy(lines) == 0.0;
    assert Lookup(u, lines[0].asset.address).None? && Lookup(a, lines[0].asset.address).None?;
    assert Lookup(u, lines[1].asset.address) == Some(token);
    ScoredPair(lines, u, a, token);
  }

  /** The two scored lines of NegativeRewardExceedsTotal: 0 for the unknown token, the APY for the known one. */
  lemma ScoredPair(lines: seq<Morpho.VaultReward>, u: map<string, Option<Token>>, a: map<string, Option<Token>>, token: Token)
    requires |lines| == 2 && lines[0].apy == -0.5 && lines[1].apy == 0.5
    requires Lookup(u, lines[0].asset.address).None? && Lookup(a, lines[0].asset.address).None?
    requires Lookup(u, lines[1].asset.address) == Some(token)
    requires token.totalValueLockedUSD >= GOOD_TVL_USD && token.volumeUSD >= GOOD_VOLUME_USD
    requires token.txCount >= GOOD_TX_COUNT
    ensures SumRisk(ScoreRewards(lines, u, a)) == 0.5
  {
    var ys := ScoreRewards(lines, u, a);
    ScoreRewardUnknown(lines[0], u, a);
    ScoreRewardWellTraded(lines[1], u, a, token);
    SumRiskPair(ys);
  }

  /** A reward whose token is at or above every good threshold in one market keeps its whole APY. */
  lemma ScoreRewardWellTraded(reward: Morpho.VaultReward, u: map<string, Option<Token>>, a: map<string, Option<Token>>,
                              token: Token)
    requires Lookup(u, reward.asset.address) == Some(token)
    requires token.totalValueLockedUSD >= GOOD_TVL_USD && token.volumeUSD >= GOOD_VOLUME_USD
    requires token.txCount >= GOOD_TX_COUNT
    ensures ScoreReward(reward, u, a).riskAdjustedApy == reward.apy
  {
    var y := ScoreReward(reward, u, a);
    WeightedFactorRange(token.totalValueLockedUSD, token.volumeUSD, token.txCount);
    assert y.uniswapRiskFactor == 1.0;
    AdjustedApyBetween(reward.apy, y.uniswapRiskFactor, y.aerodromeRiskFactor);
  }

  lemma SumRiskPair(ys: seq<YieldOptionReward>)
    requires |ys| == 2
    ensures SumRisk(ys) == ys[0].riskAdjustedApy + ys[1].riskAdjustedApy
  {
    var tail := ys[1..];
    assert |tail| == 1 && tail[0] == ys[1] && tail[1..] == [];
    assert SumRisk(tail[1..]) == 0.0;
    assert SumRisk(tail) == ys[1].riskAdjustedApy;
  }

  /** One option per vault, in vault order (the `yieldOptions.append` of the loop). */
  function OptionsFor(vaults: seq<Morpho.Vault>, uniswapTokens: map<string, Option<Token>>,
                      aerodromeTokens: map<string, Option<Token>>): (os: seq<YieldOption>)
    ensures |os| == |vaults|
    ensures forall i :: 0 <= i < |vaults| ==> os[i] == OptionFor(vaults[i], uniswapTokens, aerodromeTokens)
  {
    if |vaults| == 0 then []
    else OptionsFor(vaults[..|vaults| - 1], uniswapTokens, aerodromeTokens)
         + [OptionFor(vaults[|vaults| - 1], uniswapTokens, aerodromeTokens)]
  }

  /** The sort key of the ranking. */
  function RiskAdjusted(o: YieldOption): real {
    o.riskAdjustedApy
  }

  /**
   * The body of the per-vault loop: the accumulator starts at the base APY and gains each
   * reward's adjusted APY as the reward is scored and appended.
   */
  method ScoreVault(vault: Morpho.Vault, uniswapTokens: map<string, Option<Token>>,
                    aerodromeTokens: map<string, Option<Token>>) returns (option: YieldOption)
    ensures option == OptionFor(vault, uniswapTokens, aerodromeTokens)
  {
    var overallRiskAdjustedApy := vault.baseApy;
    var rewards: seq<YieldOptionReward> := [];
    for j := 0 to |vault.rewardApys|
      invariant rewards == ScoreRewards(vault.rewardApys[..j], uniswapTokens, aerodromeTokens)
      invariant overallRiskAdjustedApy == vault.baseApy + SumRisk(rewards)
    {
      var reward := vault.rewardApys[j];
      var uniswapToken := Lookup(uniswapTokens, reward.asset.address);
      var aerodromeToken := Lookup(aerodromeTokens, reward.asset.address);
      var uniswapFactor := TokenQualityFactor(uniswapToken);
      var aerodromeFactor := TokenQualityFactor(aerodromeToken);
      var adjustedRewardApy := AdjustedApy(reward.apy, uniswapFactor, aerodromeFactor);
      overallRiskAdjustedApy := overallRiskAdjustedApy + adjustedRewardApy;
      var scored := YieldOptionReward(
        OptionAsset(reward.asset), reward.apy, adjustedRewardApy,
        TvlOf(uniswapToken), VolumeOf(uniswapToken), TxCountOf(uniswapToken), uniswapFactor,
        TvlOf(aerodromeToken), VolumeOf(aerodromeToken), TxCountOf(aerodromeToken), aerodromeFactor);
      assert scored == ScoreReward(reward, uniswapTokens, aerodromeTokens);
      SumRiskAppend(rewards, scored);
      ScoreRewardsStep(vault.rewardApys, j, uniswapTokens, aerodromeTokens);
      rewards := rewards + [scored];
    }
    assert vault.rewardApys[..|vault.rewardApys|] == vault.rewardApys;
    option := YieldOption(
      vault.name, vault.symbol, vault.address, vault.totalDepositsUsd, vault.totalDeposits,
      vault.creationTimestamp, vault.totalApy, vault.baseApy, overallRiskAdjustedApy, rewards);
  }

  lemma ScoreRewardsStep(rewards: seq<Morpho.VaultReward>, j: nat, uniswapTokens: map<string, Option<Token>>,
                         aerodromeTokens: map<string, Option<Token>>)
    requires j < |rewards|
    ensures ScoreRewards(rewards[..j + 1], uniswapTokens, aerodromeTokens)
         == ScoreRewards(rewards[..j], uniswapTokens, aerodromeTokens) + [ScoreReward(rewards[j], uniswapTokens, aerodromeTokens)]
  {
  }

  /** The per-vault loop: one option appended per vault, in vault order. */
  method ScoreVaults(vaults: seq<Morpho.Vault>, uniswapTokens: map<string, Option<Token>>,
                     aerodromeTokens: map<string, Option<Token>>) returns (yieldOptions: seq<YieldOption>)
    ensures yieldOptions == OptionsFor(vaults, uniswapTokens, aerodromeTokens)
  {
    yieldOptions := [];
    for i := 0 to |vaults|
      invariant yieldOptions == OptionsFor(vaults[..i], uniswapTokens, aerodromeTokens)
    {
      var option := ScoreVault(vaults[i], uniswapTokens, aerodromeTokens);
      assert vaults[..i + 1][..i] == vaults[..i];
      yieldOptions := yieldOptions + [option];
    }
    assert vaults[..|vaults|] == vaults;
  }

  // ---------------------------------------------------------------------------
  // list_morpho_yield_options
  // ---------------------------------------------------------------------------

  /** The options of the loaded vaults, before sorting, with both token maps built over `allRewardAssets`. */
  function UnsortedOptions(up: Upstream, vaults: seq<Morpho.Vault>): seq<YieldOption> {
    var keys := RewardAssets(vaults).keys;
    OptionsFor(vaults, TokenMap(keys, up.uniswapToken), TokenMap(keys, up.aerodromeToken))
  }

  /**
   * What `list_morpho_yield_options` returns: the failure of the USDC lookup or of the vault
   * listing, else the vaults' options sorted by risk-adjusted APY, non-increasing.
   */
  function MorphoYieldOptions(up: Upstream): Result<seq<YieldOption>> {
    if up.usdcAsset.Err? then Err(up.usdcAsset.error)
    else
      var vaults := up.vaultsOf(up.usdcAsset.value.address);
      if vaults.Err? then Err(vaults.error)
      else Ok(SortDesc(UnsortedOptions(up, vaults.value), RiskAdjusted))
  }

  /**
   * The ranking holds one option per listed vault, each exactly once, ordered by risk-adjusted
   * APY, non-increasing, with ties in vault order.
   */
  lemma MorphoYieldOptionsRanked(up: Upstream, k: real)
    requires MorphoYieldOptions(up).Ok?
    ensures var vaults := up.vaultsOf(up.usdcAsset.value.address).value;
            var ranked := MorphoYieldOptions(up).value;
            && |ranked| == |vaults|
            && multiset(ranked) == multiset(UnsortedOptions(up, vaults))
            && SortedDesc(ranked, RiskAdjusted)
            && Filter(ranked, KeyIs(RiskAdjusted, k)) == Filter(UnsortedOptions(up, vaults), KeyIs(RiskAdjusted, k))
  {
    var vaults := up.vaultsOf(up.usdcAsset.value.address).value;
    var options := UnsortedOptions(up, vaults);
    var ranked := SortDesc(options, RiskAdjusted);
    assert |ranked| == |multiset(ranked)| == |multiset(options)| == |options|;
    SortDescStable(options, RiskAdjusted, k);
  }

  /**
   * Every ranked option is one of the listed vaults, and its risk-adjusted APY is its base APY
   * plus the adjusted APYs of its rewards.
   */
  lemma MorphoYieldOptionsDecompose(up: Upstream)
    requires MorphoYieldOptions(up).Ok?
    ensures var vaults := up.vaultsOf(up.usdcAsset.value.address).value;
            forall o :: o in MorphoYieldOptions(up).value ==>
              && o.riskAdjustedApy == o.baseApy + SumRisk(o.rewards)
              && exists i :: 0 <= i < |vaults| && o.address == vaults[i].address && o.baseApy == vaults[i].baseApy
  {
    var vaults := up.vaultsOf(up.usdcAsset.value.address).value;
    var options := UnsortedOptions(up, vaults);
    var ranked := MorphoYieldOptions(up).value;
    forall o | o in ranked
      ensures && o.riskAdjustedApy == o.baseApy + SumRisk(o.rewards)
              && exists i :: 0 <= i < |vaults| && o.address == vaults[i].address && o.baseApy == vaults[i].baseApy
    {
      assert o in multiset(ranked);
      assert o in multiset(options);
      var i :| 0 <= i < |options| && options[i] == o;
      assert o.address == vaults[i].address && o.baseApy == vaults[i].baseApy;
    }
  }

  /**
   * Each reward of each option is scored with its own token's lookups: the token maps hold,
   * for every reward address, exactly what the two lookups of that address returned.
   */
  lemma UnsortedOptionsLookups(up: Upstream, vaults: seq<Morpho.Vault>, i: nat, j: nat)
    requires i < |vaults| && j < |vaults[i].rewardApys|
    ensures var address := vaults[i].rewardApys[j].asset.address;
            var keys := RewardAssets(vaults).keys;
            && Lookup(TokenMap(keys, up.uniswapToken), address) == AsToken(up.uniswapToken(address))
            && Lookup(TokenMap(keys, up.aerodromeToken), address) == AsToken(up.aerodromeToken(address))
  {
    RewardAssetsCover(vaults);
    var keys := RewardAssets(vaults).keys;
    var address := vaults[i].rewardApys[j].asset.address;
    var n :| 0 <= n < |keys| && keys[n] == address;
    TokenMapAt(keys, up.uniswapToken, n);
    TokenMapAt(keys, up.aerodromeToken, n);
  }

  /** `list_morpho_yield_options`. */
  method ListMorphoYieldOptions(up: Upstream) returns (r: Result<seq<YieldOption>>)
    ensures r == MorphoYieldOptions(up)
  {
    var usdcAsset := up.usdcAsset;
    if usdcAsset.Err? {
      return Err(usdcAsset.error);
    }
    var vaults := up.vaultsOf(usdcAsset.value.address);
    if vaults.Err? {
      return Err(vaults.error);
    }
    var allRewardAssets := CollectRewardAssets(vaults.value);
    var uniswapRewardTokens := Map(Map(allRewardAssets.keys, up.uniswapToken), AsToken);
    var uniswapRewardTokensMap := Zip(allRewardAssets.keys, uniswapRewardTokens);
    var aerodromeRewardTokens := Map(Map(allRewardAssets.keys, up.aerodromeToken), AsToken);
    var aerodromeRewardTokensMap := Zip(allRewardAssets.keys, aerodromeRewardTokens);
    var yieldOptions := ScoreVaults(vaults.value, uniswapRewardTokensMap, aerodromeRewardTokensMap);
    r := Ok(SortDesc(yieldOptions, RiskAdjusted));
  }

  // ---------------------------------------------------------------------------
  // Spark and the combined list
  // ---------------------------------------------------------------------------

  const ZERO_ADDRESS := "0x0000000000000000000000000000000000000000"

  /** `list_spark_yield_options`: one fixed option at 12.5% with no rewards, whatever the chain. */
  function SparkYieldOptions(): (r: seq<YieldOption>)
    ensures |r| == 1
    ensures r[0].totalApy == r[0].baseApy == r[0].riskAdjustedApy == 12.5
    ensures r[0].name == "Spark.fi" && r[0].symbol == "SPARK" && r[0].address == ZERO_ADDRESS
    ensures r[0].rewards == [] && r[0].totalDepositsUsd == 0.0 && r[0].totalDeposits == 0.0 && r[0].creationDate == 0
  {
    [YieldOption("Spark.fi", "SPARK", ZERO_ADDRESS, 0.0, 0.0, 0, 12.5, 12.5, 12.5, [])]
  }

  /** The gathered lists: the first failure in list order, else their concatenation in order. */
  function Gathered<T>(lists: seq<Result<seq<T>>>): Result<seq<T>> {
    if |lists| == 0 then Ok([])
    else if lists[0].Err? then Err(lists[0].error)
    else
      var rest := Gathered(lists[1..]);
      if rest.Err? then Err(rest.error) else Ok(lists[0].value + rest.value)
  }

  lemma {:induction false} GatheredFailure<T>(lists: seq<Result<seq<T>>>, i: nat)
    requires i < |lists| && lists[i].Err?
    requires forall j :: 0 <= j < i ==> lists[j].Ok?
    ensures Gathered(lists) == Err(lists[i].error)
  {
    if i > 0 {
      GatheredFailure(lists[1..], i - 1);
    }
  }

  lemma {:induction false} GatheredSplit<T>(lists: seq<Result<seq<T>>>, i: nat)
    requires i < |lists| && forall j :: 0 <= j < |lists| ==> lists[j].Ok?
    ensures Gathered(lists[i..]).Ok? && Gathered(lists[i + 1..]).Ok?
    ensures Gathered(lists[i..]).value == lists[i].value + Gathered(lists[i + 1..]).value
    decreases |lists| - i
  {
    assert lists[i..][1..] == lists[i + 1..];
    if i + 1 < |lists| {
      GatheredSplit(lists, i + 1);
    } else {
      assert lists[i + 1..] == [];
    }
  }

  /**
   * The loop that raises the first failed list, then the comprehension that concatenates the
   * lists in order.
   */
  method RaiseFirstOrConcat<T>(lists: seq<Result<seq<T>>>) returns (r: Result<seq<T>>)
    ensures r == Gathered(lists)
  {
    for i := 0 to |lists|
      invariant forall j :: 0 <= j < i ==> lists[j].Ok?
    {
      if lists[i].Err? {
        GatheredFailure(lists, i);
        return Err(lists[i].error);
      }
    }
    var all: seq<T> := [];
    assert lists[0..] == lists;
    if |lists| > 0 {
      GatheredSplit(lists, 0);
    }
    for i := 0 to |lists|
      invariant Gathered(lists[i..]).Ok?
      invariant Gathered(lists).Ok? && Gathered(lists).value == all + Gathered(lists[i..]).value
    {
      GatheredSplit(lists, i);
      all := all + lists[i].value;
    }
    assert lists[|lists|..] == [];
    assert all + [] == all;
    r := Ok(all);
  }

  /** What `list_all_yield_options` returns. */
  function AllYieldOptions(up: Upstream): Result<seq<YieldOption>> {
    Gathered([MorphoYieldOptions(up), Ok(SparkYieldOptions())])
  }

  /**
   * The combined list fails exactly when the Morpho list fails, with its error; otherwise it is
   * the ranked Morpho options followed by the Spark option, not sorted again.
   */
  lemma AllYieldOptionsConcat(up: Upstream)
    ensures AllYieldOptions(up).Err? <==> MorphoYieldOptions(up).Err?
    ensures MorphoYieldOptions(up).Err? ==> AllYieldOptions(up).error == MorphoYieldOptions(up).error
    ensures MorphoYieldOptions(up).Ok? ==>
              AllYieldOptions(up).value == MorphoYieldOptions(up).value + SparkYieldOptions()
  {
    var lists := [MorphoYieldOptions(up), Ok(SparkYieldOptions())];
    var spark := [Ok(SparkYieldOptions())];
    assert lists[1..] == spark;
    assert spark[1..] == [];
    assert SparkYieldOptions() + [] == SparkYieldOptions();
    assert Gathered(spark) == Ok(SparkYieldOptions());
  }

  /** `list_all_yield_options`. */
  method ListAllYieldOptions(up: Upstream) returns (r: Result<seq<YieldOption>>)
    ensures r == AllYieldOptions(up)
  {
    var morphoOptions := ListMorphoYieldOptions(up);
    var sparkOptions := SparkYieldOptions();
    r := RaiseFirstOrConcat([morphoOptions, Ok(sparkOptions)]);
  }
}
