/**
 * The Morpho vault repository of the backend: asset lookups by symbol and by address, and
 * `list_vaults`, which orders the vaults of an asset by USD deposits, drops the vaults with
 * warnings and splits each vault's net APY into a base APY and reward lines.
 */
module Morpho {
  import opened Wrappers
  import opened Seqs
  import opened Text
  import opened Paging
  import opened Storage
  import opened BackendUtil

  const MORPHO_API_URL := "https://blue-api.morpho.org/graphql"
  /** The MORPHO reward token on Base. */
  const MORPHO_TOKEN_ADDRESS := "0xbaa5cc21fd487b8fcc2f632f3f4e8d37262a0842"
  /** Stand for the `morpho_queries` documents, whose text is not part of this model. */
  const GET_CHAIN_ASSET_QUERY := "GET_CHAIN_ASSET_QUERY"
  const GET_CHAIN_ASSET_BY_ADDRESS_QUERY := "GET_CHAIN_ASSET_BY_ADDRESS_QUERY"
  const LIST_CHAIN_ASSET_VAULTS_QUERY := "LIST_CHAIN_ASSET_VAULTS_QUERY"

  datatype Asset = Asset(
    morphoId: string,
    address: string,
    decimals: int,
    name: string,
    symbol: string,
    tags: Option<seq<string>>,
    logoURI: Option<string>,
    totalSupply: int,
    priceUsd: Option<real>,
    oraclePriceUsd: Option<real>,
    spotPriceEth: Option<real>)

  /** One reward line of a vault: the reward asset and its APY. */
  datatype VaultReward = VaultReward(asset: Asset, apy: real)

  datatype Vault = Vault(
    name: string,
    symbol: string,
    address: string,
    totalDepositsUsd: real,
    totalDeposits: real,
    creationTimestamp: int,
    totalApy: real,
    baseApy: real,
    rewardApys: seq<VaultReward>)

  /** A reward of a vault as the API reports it. */
  datatype RewardRecord = RewardRecord(asset: Asset, supplyApr: real)

  /** `vault['state']` as the API reports it. */
  datatype VaultState = VaultState(
    totalAssets: real,
    totalAssetsUsd: real,
    netApy: real,
    netApyWithoutRewards: real,
    rewards: seq<RewardRecord>)

  /** A vault as the API reports it. */
  datatype VaultRecord = VaultRecord(
    name: string,
    symbol: string,
    address: string,
    creationTimestamp: int,
    state: VaultState,
    warnings: seq<string>)

  // ---------------------------------------------------------------------------
  // Asset lookups
  // ---------------------------------------------------------------------------

  function HasSymbol(symbol: string): Asset -> bool {
    (a: Asset) => a.symbol == symbol
  }

  function HasAddress(address: string): Asset -> bool {
    (a: Asset) => EqualsIgnoreCase(a.address, address)
  }

  /** The first asset whose symbol equals `symbol` exactly (case-sensitive), or NotFound. */
  function FindAssetBySymbol(assets: seq<Asset>, symbol: string): (r: Result<Asset>)
    ensures r.Err? <==> forall j :: 0 <= j < |assets| ==> assets[j].symbol != symbol
    ensures r.Err? ==> r.error == NotFound
    ensures r.Ok? ==> exists i :: 0 <= i < |assets| && assets[i] == r.value && r.value.symbol == symbol
                         && forall j :: 0 <= j < i ==> assets[j].symbol != symbol
  {
    match FirstMatch(assets, HasSymbol(symbol))
    case Some(a) => Ok(a)
    case None => Err(NotFound)
  }

  /** The first asset whose address equals `address` case-insensitively, or NotFound. */
  function FindAssetByAddress(assets: seq<Asset>, address: string): (r: Result<Asset>)
    ensures r.Err? <==> forall j :: 0 <= j < |assets| ==> !EqualsIgnoreCase(assets[j].address, address)
    ensures r.Err? ==> r.error == NotFound
    ensures r.Ok? ==> exists i :: 0 <= i < |assets| && assets[i] == r.value
                         && EqualsIgnoreCase(r.value.address, address)
                         && forall j :: 0 <= j < i ==> !EqualsIgnoreCase(assets[j].address, address)
  {
    match FirstMatch(assets, HasAddress(address))
    case Some(a) => Ok(a)
    case None => Err(NotFound)
  }

  function AssetQuery(chainId: int, assetSymbol: string): Query {
    Query(MORPHO_API_URL, GET_CHAIN_ASSET_QUERY, map["chainId" := Int(chainId), "assetSymbol" := Str(assetSymbol)])
  }

  function AssetByAddressQuery(chainId: int, assetAddress: string): Query {
    Query(MORPHO_API_URL, GET_CHAIN_ASSET_BY_ADDRESS_QUERY, map["chainId" := Int(chainId), "assetAddress" := Str(assetAddress)])
  }

  function VaultsQuery(chainId: int, assetAddress: string): Query {
    Query(MORPHO_API_URL, LIST_CHAIN_ASSET_VAULTS_QUERY, map["chainId" := Int(chainId), "assetAddress" := Str(assetAddress)])
  }

  /**
   * `get_asset_by_symbol`: the paged assets of `asset-{symbol}` are loaded through the backend
   * cache, and the first exact symbol match is returned; a failed load propagates.
   */
  method GetAssetBySymbol(cache: FileCache<Asset>, chainId: int, assetSymbol: string, script: seq<Response<Asset>>)
    returns (r: Result<Asset>, sent: seq<Query>)
    modifies cache
    ensures var path := CachePath(CACHE_DIR, "morpho", "asset-" + assetSymbol);
            var f := Load(old(cache.files), path, AssetQuery(chainId, assetSymbol), script, false);
            && sent == f.sent
            && cache.files == CacheAfter(old(cache.files), path, f.result)
            && r == if f.result.Ok? then FindAssetBySymbol(f.result.value, assetSymbol) else Err(f.result.error)
  {
    var assets;
    assets, sent := BackendUtil.LoadOrQuery(cache, "morpho", "assets", AssetQuery(chainId, assetSymbol), script,
                                            Some("asset-" + assetSymbol), false);
    if assets.Err? {
      return Err(assets.error), sent;
    }
    r := FindAssetBySymbol(assets.value, assetSymbol);
  }

  /**
   * `get_asset_by_address`: the paged assets of `asset-{address}` are loaded through the backend
   * cache, and the first case-insensitive address match is returned; a failed load propagates.
   */
  method GetAssetByAddress(cache: FileCache<Asset>, chainId: int, assetAddress: string, script: seq<Response<Asset>>)
    returns (r: Result<Asset>, sent: seq<Query>)
    modifies cache
    ensures var path := CachePath(CACHE_DIR, "morpho", "asset-" + assetAddress);
            var f := Load(old(cache.files), path, AssetByAddressQuery(chainId, assetAddress), script, false);
            && sent == f.sent
            && cache.files == CacheAfter(old(cache.files), path, f.result)
            && r == if f.result.Ok? then FindAssetByAddress(f.result.value, assetAddress) else Err(f.result.error)
  {
    var assets;
    assets, sent := BackendUtil.LoadOrQuery(cache, "morpho", "assets", AssetByAddressQuery(chainId, assetAddress), script,
                                            Some("asset-" + assetAddress), false);
    if assets.Err? {
      return Err(assets.error), sent;
    }
    r := FindAssetByAddress(assets.value, assetAddress);
  }

  // ---------------------------------------------------------------------------
  // APY decomposition
  // ---------------------------------------------------------------------------

  /** `sum(reward['supplyApr'] for reward in rewards)`. */
  function SumSupplyApr(rewards: seq<RewardRecord>): real {
    if |rewards| == 0 then 0.0 else rewards[0].supplyApr + SumSupplyApr(rewards[1..])
  }

  /** The sum of the reward lines' APYs. */
  function SumApy(lines: seq<VaultReward>): real {
    if |lines| == 0 then 0.0 else lines[0].apy + SumApy(lines[1..])
  }

  /** The reward line of one reported reward: its asset, at its supply APR. */
  function RewardLine(reward: RewardRecord): VaultReward {
    VaultReward(reward.asset, reward.supplyApr)
  }

  /** The reward lines of the reported rewards, in order. */
  function RewardLines(rewards: seq<RewardRecord>): (lines: seq<VaultReward>)
    ensures |lines| == |rewards|
    ensures forall i :: 0 <= i < |rewards| ==> lines[i] == VaultReward(rewards[i].asset, rewards[i].supplyApr)
  {
    if |rewards| == 0 then [] else [RewardLine(rewards[0])] + RewardLines(rewards[1..])
  }

  /** The reward lines carry, in total, exactly the reported supply APRs. */
  lemma {:induction false} SumApyRewardLines(rewards: seq<RewardRecord>)
    ensures SumApy(RewardLines(rewards)) == SumSupplyApr(rewards)
  {
    if |rewards| > 0 {
      SumApyRewardLines(rewards[1..]);
      assert RewardLines(rewards)[1..] == RewardLines(rewards[1..]);
    }
  }

  /** The synthesised MORPHO line: what `netApy` holds beyond the base APY and the reported rewards. */
  function MorphoApy(state: VaultState): real {
    state.netApy - state.netApyWithoutRewards - SumSupplyApr(state.rewards)
  }

  /**
   * One warning-free vault record as a Vault: the MORPHO line first, then one line per reported
   * reward in order; the lines add up to the difference between the net APY and the base APY.
   */
  function ToVault(record: VaultRecord, morphoAsset: Asset): (v: Vault)
    ensures v.name == record.name && v.symbol == record.symbol && v.address == record.address
    ensures v.creationTimestamp == record.creationTimestamp
    ensures v.totalDepositsUsd == record.state.totalAssetsUsd && v.totalDeposits == record.state.totalAssets
    ensures v.totalApy == record.state.netApy && v.baseApy == record.state.netApyWithoutRewards
    ensures |v.rewardApys| == 1 + |record.state.rewards|
    ensures v.rewardApys[0] == VaultReward(morphoAsset, MorphoApy(record.state))
    ensures forall i :: 0 <= i < |record.state.rewards| ==>
              v.rewardApys[i + 1] == VaultReward(record.state.rewards[i].asset, record.state.rewards[i].supplyApr)
    ensures v.totalApy == v.baseApy + SumApy(v.rewardApys)
  {
    var state := record.state;
    var rewardApys := [VaultReward(morphoAsset, MorphoApy(state))] + RewardLines(state.rewards);
    SumApyRewardLines(state.rewards);
    assert rewardApys[1..] == RewardLines(state.rewards);
    Vault(record.name, record.symbol, record.address, state.totalAssetsUsd, state.totalAssets,
          record.creationTimestamp, state.netApy, state.netApyWithoutRewards, rewardApys)
  }

  // ---------------------------------------------------------------------------
  // list_vaults
  // ---------------------------------------------------------------------------

  /** The sort key of `list_vaults`: `vault['state']['totalAssetsUsd']`. */
  function DepositsUsd(record: VaultRecord): real {
    record.state.totalAssetsUsd
  }

  /** `len(vault['warnings']) == 0`. */
  predicate Unwarned(record: VaultRecord) {
    |record.warnings| == 0
  }

  function TotalDepositsUsd(v: Vault): real {
    v.totalDepositsUsd
  }

  /** The vaults of the given records, in order (the `vaults.append` of the loop). */
  function ToVaults(records: seq<VaultRecord>, morphoAsset: Asset): (vs: seq<Vault>)
    ensures |vs| == |records|
    ensures forall i :: 0 <= i < |records| ==> vs[i] == ToVault(records[i], morphoAsset)
  {
    if |records| == 0 then []
    else ToVaults(records[..|records| - 1], morphoAsset) + [ToVault(records[|records| - 1], morphoAsset)]
  }

  /** The records that reach the output: warning-free, in the order of the descending sort. */
  function KeptRecords(records: seq<VaultRecord>): seq<VaultRecord> {
    Filter(SortDesc(records, DepositsUsd), Unwarned)
  }

  /** What `list_vaults` returns for the loaded records and the MORPHO asset. */
  function ListedVaults(records: seq<VaultRecord>, morphoAsset: Asset): seq<Vault> {
    ToVaults(KeptRecords(records), morphoAsset)
  }

  /**
   * The kept records are exactly the warning-free records, each as often as in the input
   * (nothing else is dropped), ordered by USD deposits, non-increasing.
   */
  lemma KeptRecordsPermutation(records: seq<VaultRecord>)
    ensures forall r :: r in KeptRecords(records) ==> Unwarned(r)
    ensures multiset(KeptRecords(records)) == multiset(Filter(records, Unwarned))
    ensures SortedDesc(KeptRecords(records), DepositsUsd)
  {
    FilterPermutation(SortDesc(records, DepositsUsd), records, Unwarned);
    FilterSorted(SortDesc(records, DepositsUsd), Unwarned, DepositsUsd);
  }

  /** Stability: kept records with equal USD deposits keep their input order. */
  lemma KeptRecordsStable(records: seq<VaultRecord>, k: real)
    ensures Filter(KeptRecords(records), KeyIs(DepositsUsd, k))
         == Filter(Filter(records, Unwarned), KeyIs(DepositsUsd, k))
  {
    var byKey := KeyIs(DepositsUsd, k);
    FilterCommute(SortDesc(records, DepositsUsd), Unwarned, byKey);
    SortDescStable(records, DepositsUsd, k);
    FilterCommute(records, byKey, Unwarned);
  }

  /**
   * The output of `list_vaults` is ordered by `totalDepositsUsd`, non-increasing, has one vault
   * per kept record, and every vault's APYs decompose as `totalApy == baseApy + sum of rewardApys`.
   */
  lemma ListedVaultsOrdered(records: seq<VaultRecord>, morphoAsset: Asset)
    ensures |ListedVaults(records, morphoAsset)| == |Filter(records, Unwarned)|
    ensures SortedDesc(ListedVaults(records, morphoAsset), TotalDepositsUsd)
    ensures forall v :: v in ListedVaults(records, morphoAsset) ==> v.totalApy == v.baseApy + SumApy(v.rewardApys)
  {
    KeptRecordsPermutation(records);
    var kept := KeptRecords(records);
    assert |kept| == |multiset(kept)| == |multiset(Filter(records, Unwarned))| == |Filter(records, Unwarned)|;
  }

  /** One step of the loop: the filtered prefix grows by the record when it has no warnings. */
  lemma CollectStep(records: seq<VaultRecord>, i: nat, morphoAsset: Asset)
    requires i < |records|
    ensures ToVaults(Filter(records[..i + 1], Unwarned), morphoAsset)
         == ToVaults(Filter(records[..i], Unwarned), morphoAsset)
            + (if Unwarned(records[i]) then [ToVault(records[i], morphoAsset)] else [])
  {
    var prefix := records[..i + 1];
    assert prefix[..|prefix| - 1] == records[..i];
    if Unwarned(records[i]) {
      var kept := Filter(records[..i], Unwarned) + [records[i]];
      assert kept[..|kept| - 1] == Filter(records[..i], Unwarned);
    }
  }

  /** The `for vault in orderedVaults` loop: skip records with warnings, append the others' vaults. */
  method CollectVaults(orderedVaults: seq<VaultRecord>, morphoAsset: Asset) returns (vaults: seq<Vault>)
    ensures vaults == ToVaults(Filter(orderedVaults, Unwarned), morphoAsset)
  {
    vaults := [];
    for i := 0 to |orderedVaults|
      invariant vaults == ToVaults(Filter(orderedVaults[..i], Unwarned), morphoAsset)
    {
      CollectStep(orderedVaults, i, morphoAsset);
      var vault := orderedVaults[i];
      if |vault.warnings| > 0 {
        continue;
      }
      vaults := vaults + [ToVault(vault, morphoAsset)];
    }
    assert orderedVaults[..|orderedVaults|] == orderedVaults;
  }

  /**
   * `list_vaults`: the paged vaults of `vaults-{assetAddress}` are loaded through the backend
   * cache, then the MORPHO asset is looked up by address; a failure of either propagates.
   * Otherwise the result is ListedVaults of the loaded records.
   */
  method ListVaults(vaultCache: FileCache<VaultRecord>, assetCache: FileCache<Asset>, chainId: int,
                    assetAddress: string, vaultScript: seq<Response<VaultRecord>>, assetScript: seq<Response<Asset>>)
    returns (r: Result<seq<Vault>>, sent: seq<Query>)
    modifies vaultCache, assetCache
    ensures var vaultPath := CachePath(CACHE_DIR, "morpho", "vaults-" + assetAddress);
            var fv := Load(old(vaultCache.files), vaultPath, VaultsQuery(chainId, assetAddress), vaultScript, false);
            && vaultCache.files == CacheAfter(old(vaultCache.files), vaultPath, fv.result)
            && (fv.result.Err? ==>
                  r == Err(fv.result.error) && sent == fv.sent && assetCache.files == old(assetCache.files))
            && (fv.result.Ok? ==>
                  var assetPath := CachePath(CACHE_DIR, "morpho", "asset-" + MORPHO_TOKEN_ADDRESS);
                  var fa := Load(old(assetCache.files), assetPath, AssetByAddressQuery(chainId, MORPHO_TOKEN_ADDRESS),
                                 assetScript, false);
                  var morpho := if fa.result.Ok? then FindAssetByAddress(fa.result.value, MORPHO_TOKEN_ADDRESS)
                                else Err(fa.result.error);
                  && sent == fv.sent + fa.sent
                  && assetCache.files == CacheAfter(old(assetCache.files), assetPath, fa.result)
                  && r == if morpho.Ok? then Ok(ListedVaults(fv.result.value, morpho.value)) else Err(morpho.error))
  {
    var records, vaultRequests := BackendUtil.LoadOrQuery(vaultCache, "morpho", "vaults", VaultsQuery(chainId, assetAddress),
                                                          vaultScript, Some("vaults-" + assetAddress), false);
    if records.Err? {
      return Err(records.error), vaultRequests;
    }
    var orderedVaults := SortDesc(records.value, DepositsUsd);
    var morphoAsset, assetRequests := GetAssetByAddress(assetCache, chainId, MORPHO_TOKEN_ADDRESS, assetScript);
    sent := vaultRequests + assetRequests;
    if morphoAsset.Err? {
      return Err(morphoAsset.error), sent;
    }
    var vaults := CollectVaults(orderedVaults, morphoAsset.value);
    r := Ok(vaults);
  }
}
