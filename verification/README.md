# Yield ranking of agent-hack, modelled in Dafny

This project models the yield-ranking pipeline of the agent-hack Python backends. The pipeline has four parts:

- **Cached paginated loader** (`load_or_query`, in both `util.py` files). It serves a cache file or pages through a GraphQL entity. Each request carries a `skip` offset equal to the number of items collected so far. It writes a non-empty result back to the cache. The cache is a `FileCache` class whose `files` map the loaders update in place. The remote endpoint is a finite script of responses.
- **Morpho vault repository** (`backend/agent_hack/morpho.py`):
  - asset lookup by exact symbol and by case-insensitive address;
  - `list_vaults`, which sorts the vault records by USD deposits in descending order, drops records with warnings, and splits the net APY into a base APY, a synthesised MORPHO reward line and the reported reward lines.
- **Market-token lookups** on the Uniswap subgraph (both trees) and the Aerodrome subgraph. Each does a chain check, one inlined query, and then takes the first case-insensitive id match or raises NotFound.
- **Quality scoring and ranking** (`yield_options.py` and the `morpho_list_vaults` action):
  - three clamped sub-factors, weighted 0.5, 0.3 and 0.2;
  - the better of the Uniswap and Aerodrome factors;
  - risk-adjusted APYs;
  - a stable descending sort;
  - the static Spark option, and the concatenation of the two lists.

APYs, USD amounts and factors are `real`, so the clamping bounds and the sum decompositions hold exactly. `asyncio.gather` is an order-preserving map (`Seqs.Map`) whose elements are `Result`s. `dict(zip(...))` is `Seqs.Zip`.

For the ranking, what the lower layers return for the chain is a parameter, `YieldOptions.Upstream`:

- the USDC asset;
- the vaults of an asset address;
- one lookup function per market, each returning a token or the error it raised.

The lookups themselves are modelled separately, in `Morpho`, `ApiUniswap` and `Aerodrome`.

Two points of the code that the model keeps as written:

- `get_asset_by_symbol` compares symbols exactly, case included (backend/agent_hack/morpho.py:49-52).
- `list_all_yield_options` appends the Spark option after the sorted Morpho options and does not sort the combined list again (api/agent_hack/yield_options.py:162-171).

## Model

| member | source | states |
|---|---|---|
| Paging.FetchPages | api/agent_hack/util.py:29-43 | The `while True` loop's result and its posted requests are exactly `Fetch`, the request-by-request run. |
| Paging.FetchIsPagedRun | api/agent_hack/util.py:29-43 | Every run of the loop is characterised as follows. Request j carries `skip` equal to the number of items of the pages before it. Every page but the last is full (`pageInfo` present, not inlined, and `count >= limit`). The loop stops at the first page that is not full. The result is the concatenation of the pages' items in request order, or the error of a failed request. |
| Paging.FetchFromIsPagedRun | backend/agent_hack/util.py:17-31 | The same characterisation from any request k on, given the items and requests so far. It is proved by induction on the requests left. |
| Paging.StopIsPagedRun | backend/agent_hack/util.py:25-31 | The case where request k ends the loop: either a page that is not full, whose items complete the result, or a failure. |
| Paging.FetchInlined | api/agent_hack/util.py:34-36 | With inlined items there is exactly one request, with `skip` 0, and its list is the whole result. |
| Storage.CachePathInjective | api/agent_hack/util.py:19-21 | Within one directory and source, distinct cache names give distinct cache files. |
| Storage.Persist | api/agent_hack/util.py:44-45 | The file is overwritten with exactly the fetched items iff they are a non-empty list. A failed or empty fetch leaves the cache as it was. No other file changes. |
| Storage.FileCache.Write | api/agent_hack/util.py:45 | Writing replaces exactly one file, which then has age 0. |
| ApiUtil.ServesCacheInMillis | api/agent_hack/util.py:22-24 | The TTL test `ageMillis / 1000 < expirySeconds` holds iff the file exists and is younger than `expirySeconds * 1000` milliseconds. |
| ApiUtil.LoadOrQuery | api/agent_hack/util.py:9-46 | A fresh cache file, under `./data/{source}-{cacheEntityName or entityName}.json`, is returned with no request and no change. Otherwise the pagination loop runs and the cache becomes `Persist` of its result. |
| BackendUtil.LoadOrQuery | backend/agent_hack/util.py:8-34 | Any existing cache file under `../secrets/`, whatever its age, is returned with no request and no change. Otherwise the pagination loop runs and a non-empty result is written. |
| BackendUniswap.LoadOrQuery | backend/agent_hack/uniswap.py:55-68 | An existing file is returned with no request. Otherwise exactly one request is posted, unchanged and without `skip`. Its list is the result and is written unconditionally, an empty list included. |
| BackendUniswap.GetTokenByAddress | backend/agent_hack/uniswap.py:71-85 | Any chain but 8453 fails with UnsupportedNetwork, with no request and no cache change. On Base, the query carries the address as given. The cache under `token-{address}` is written on any successful response. The result is the first case-insensitive id match, or NotFound. |
| Seqs.FirstMatch | backend/agent_hack/uniswap.py:82 | `next(..., None)` is None iff no element satisfies the predicate. Otherwise it is the element at the first satisfying position. |
| Seqs.FirstMatchAgree | api/agent_hack/uniswap.py:64 | Predicates that agree on every element select the same first match. |
| Text.Lower | api/agent_hack/uniswap.py:61 | `lower()` keeps the length and lower-cases each character in place. |
| Text.EqualsIgnoreCaseLower | api/agent_hack/uniswap.py:61-64 | Comparing case-insensitively against a lower-cased address is the same as comparing against the address. |
| ApiUniswap.FindToken | api/agent_hack/uniswap.py:64-66 | The result is NotFound iff no token's id equals the address case-insensitively. Otherwise it is the first such token. |
| ApiUniswap.FindTokenLowered | api/agent_hack/uniswap.py:61-64 | Selecting with the lower-cased address picks the same token as with the address. |
| ApiUniswap.GetTokenByAddress | api/agent_hack/uniswap.py:53-67 | Any chain but 8453 fails with UnsupportedNetwork before any cache or network access. On Base, a fresh cache file `uniswap-token-{address}` is searched with no request. Otherwise exactly one request is posted, with `skip` 0 and the lower-cased address. A non-empty answer is cached. The result is the first case-insensitive id match, or NotFound. |
| Aerodrome.GetTokenByAddress | backend/agent_hack/aerodrome.py:12-26 | Any chain but 8453 fails with UnsupportedNetwork before any query. Otherwise the behaviour is as for Uniswap, through the backend cache under `aerodrome-token-{address}` and the Aerodrome subgraph. |
| Morpho.FindAssetBySymbol | backend/agent_hack/morpho.py:49-52 | The result is NotFound iff no asset has exactly that symbol (case-sensitive). Otherwise it is the first asset that does. |
| Morpho.FindAssetByAddress | backend/agent_hack/morpho.py:63-66 | The result is NotFound iff no asset's address matches case-insensitively. Otherwise it is the first asset that matches. |
| Morpho.GetAssetBySymbol | backend/agent_hack/morpho.py:41-52 | Assets are loaded (paged) through the backend cache under `asset-{symbol}`, and the first exact symbol match is returned. A failed load propagates. The cache changes as `load_or_query` changes it. |
| Morpho.GetAssetByAddress | backend/agent_hack/morpho.py:55-66 | The same, under `asset-{address}`, with the case-insensitive address match. |
| Morpho.RewardLines | backend/agent_hack/morpho.py:90-96 | One reward line per reported reward, in order: its asset, at its `supplyApr`. |
| Morpho.SumApyRewardLines | backend/agent_hack/morpho.py:88 | The reward lines carry, in total, exactly the sum of the reported supply APRs. |
| Morpho.ToVault | backend/agent_hack/morpho.py:84-107 | Field mapping: `totalDepositsUsd` is `totalAssetsUsd`, `totalDeposits` is `totalAssets`, `totalApy` is `netApy`, `baseApy` is `netApyWithoutRewards`, and the rest are copied. There are `1 + len(rewards)` reward lines. The MORPHO line comes first, at `netApy - netApyWithoutRewards - Σ supplyApr`, then one line per reward in order. Hence `totalApy == baseApy + Σ rewardApys.apy`. |
| Morpho.ToVaults | backend/agent_hack/morpho.py:97-108 | One vault per record, in record order. |
| Morpho.KeptRecordsPermutation | backend/agent_hack/morpho.py:78-83 | The records that reach the output are warning-free. They are exactly the warning-free records of the input, each as often as there (nothing else is dropped). They are ordered by USD deposits, non-increasing. |
| Morpho.KeptRecordsStable | backend/agent_hack/morpho.py:78 | Kept records with equal USD deposits keep their input order (stable sort). |
| Morpho.ListedVaultsOrdered | backend/agent_hack/morpho.py:78-108 | The output has one vault per warning-free record. It is ordered by `totalDepositsUsd`, non-increasing. Every vault's APYs decompose. |
| Morpho.CollectStep | backend/agent_hack/morpho.py:81-83 | One loop step appends the record's vault iff the record has no warnings. |
| Morpho.CollectVaults | backend/agent_hack/morpho.py:81-108 | The loop with `continue` returns the vaults of the warning-free records, in the order given. |
| Morpho.ListVaults | backend/agent_hack/morpho.py:69-109 | Vault records are loaded (paged) under `vaults-{assetAddress}`, and a failed load propagates. Then the MORPHO asset is looked up by address, and its failure propagates. Otherwise the result is the warning-free vaults in descending deposit order. The requests are those of both loads, in order. Both caches change as `load_or_query` changes them. |
| Seqs.SortDesc | api/agent_hack/yield_options.py:142 | `sort(..., reverse=True)` gives a list that is non-increasing by key and a permutation of its input. |
| Seqs.SortDescStable | backend/agent_hack/morpho.py:78 | For every key value, the elements with that key appear in input order. |
| Seqs.FilterPermutation | backend/agent_hack/morpho.py:81-83 | Filtering two permutations of each other gives permutations of each other. |
| Seqs.FilterCommute | backend/agent_hack/morpho.py:81-83 | Two filters commute. |
| Seqs.FilterSorted | backend/agent_hack/morpho.py:78-83 | Filtering keeps a non-increasing list non-increasing. |
| Seqs.Map | api/agent_hack/yield_options.py:81-82 | The gathered results are positional: the i-th result is the lookup of the i-th key. |
| Seqs.ZipAt | api/agent_hack/yield_options.py:84 | `dict(zip(keys, values))` maps a key that does not occur later to the value at its own position. |
| Quality.SubFactor | api/agent_hack/yield_options.py:63-65 | The clamp lies in [0, 1]. It is 0 at or below the minimum, 1 at or above the good threshold, and the linear interpolation strictly between them. |
| Quality.SubFactorMonotone | api/agent_hack/yield_options.py:63-65 | A sub-factor never decreases when its metric grows. |
| Quality.WeightedFactorRange | api/agent_hack/yield_options.py:52-57 | With thresholds 100k/1M TVL, 50k/500k volume and 100/1000 transactions, the 0.5/0.3/0.2 weighted factor lies in [0, 1]. It is 0 iff every metric is at or below its minimum, and 1 iff every metric is at or above its good threshold. |
| Quality.WeightedFactorMonotone | api/agent_hack/yield_options.py:63-66 | The weighted factor is non-decreasing in each metric. |
| Quality.TokenQualityFactor | api/agent_hack/yield_options.py:60-68 | The factor is 0.0 for an absent token. Otherwise it is the token's weighted factor, always in [0, 1]. |
| Quality.EffectiveQuality | api/agent_hack/yield_options.py:100 | `max`: at least each factor, and equal to one of them. |
| Quality.AdjustedApyBetween | api/agent_hack/yield_options.py:100-101 | With factors in [0, 1], `apy * max(...)` lies between 0 and the APY, in both signs. It is 0 when both factors are 0, and the APY when either factor is 1. |
| YieldOptions.IndexOfValid | api/agent_hack/yield_options.py:77-79 | The reward-asset dict is well formed: its keys are distinct and are exactly its entries' addresses, and each entry sits under its own address. |
| YieldOptions.IndexOfKeysPrefix | api/agent_hack/yield_options.py:77-79 | Insertion order: registering more assets never moves or removes a key, so the keys of a prefix of the assets are a prefix of the keys of all of them. |
| YieldOptions.IndexOfNewKeyLast | api/agent_hack/yield_options.py:79 | An address not registered before is appended after every existing key. |
| YieldOptions.IndexOfKeys | api/agent_hack/yield_options.py:77-79 | Its keys are exactly the registered assets' addresses. |
| YieldOptions.IndexOfLastWins | api/agent_hack/yield_options.py:79 | A later asset with the same address overwrites an earlier one. |
| YieldOptions.RewardAssetsCover | api/agent_hack/yield_options.py:77-79 | Every reward address of every vault is a key of `allRewardAssets`. |
| YieldOptions.CollectRewardAssets | api/agent_hack/yield_options.py:77-79 | The nested `update` loop builds exactly `RewardAssets` of the vaults. |
| YieldOptions.AssetsOf | api/agent_hack/yield_options.py:79 | The reward assets of a vault, one per reward line, in order. |
| YieldOptions.TokenMapAt | api/agent_hack/yield_options.py:81-89 | With distinct keys, each key maps to its own lookup's token, or to None when that lookup raised. |
| YieldOptions.UnsortedOptionsLookups | api/agent_hack/yield_options.py:81-97 | Every reward address of every vault reads exactly what the two lookups of that address returned. |
| YieldOptions.ScoreReward | api/agent_hack/yield_options.py:96-126 | Both factors are recorded. `riskAdjustedApy` is `apy * max(uniswapFactor, aerodromeFactor)`. Each market's metrics are None exactly when that market does not know the token, and otherwise that token's `totalValueLockedUSD`, `volumeUSD` and `txCount`. |
| YieldOptions.ScoreRewardBetween | api/agent_hack/yield_options.py:98-101 | A scored reward's adjusted APY lies between 0 and the reward's APY. |
| YieldOptions.ScoreRewardWellTraded | api/agent_hack/yield_options.py:96-101 | A reward whose token is at or above every good threshold in one market keeps its whole APY. |
| YieldOptions.ScoreRewardUnknown | api/agent_hack/yield_options.py:96-101 | A reward whose token neither market knows is adjusted to 0. |
| YieldOptions.ScoreRewards | api/agent_hack/yield_options.py:95-127 | The rewards list is parallel to `rewardApys`: same length, same order. |
| YieldOptions.SumRiskBetween | api/agent_hack/yield_options.py:102 | With non-negative reward APYs, the adjusted rewards sum to between 0 and the sum of the rewards' APYs. |
| YieldOptions.SumRiskUnknown | api/agent_hack/yield_options.py:102 | With no reward token known, the adjusted rewards sum to 0. |
| YieldOptions.OptionRiskBetween | api/agent_hack/yield_options.py:93-138 | For a vault whose APYs decompose and whose reward APYs are non-negative, `baseApy <= riskAdjustedApy <= totalApy`. The adjusted APY is the base APY when no reward token is known. The requirement on reward APYs is needed: see the next row. |
| YieldOptions.NegativeRewardExceedsTotal | backend/agent_hack/morpho.py:88-90 | The MORPHO line `netApy - netApyWithoutRewards - Σ supplyApr` can be negative. For base 1.0, a MORPHO line of -0.5 on an unknown token and a reward of 0.5 on a well-traded token, the APYs decompose but the risk-adjusted APY is 1.5, above the total APY of 1.0. |
| YieldOptions.OptionsFor | api/agent_hack/yield_options.py:92-141 | One option per vault, in vault order. |
| YieldOptions.ScoreVault | api/agent_hack/yield_options.py:93-141 | The inner loop with the `overallRiskAdjustedApy` accumulator yields the vault's option: base APY plus the sum of the adjusted reward APYs, with the scored rewards. |
| YieldOptions.ScoreVaults | api/agent_hack/yield_options.py:91-141 | The outer loop appends one option per vault, in vault order. |
| YieldOptions.MorphoYieldOptionsRanked | api/agent_hack/yield_options.py:142-143 | One option per vault, as a permutation of the unsorted options. They are ordered by risk-adjusted APY, non-increasing, with ties in vault order. |
| YieldOptions.MorphoYieldOptionsDecompose | api/agent_hack/yield_options.py:93-143 | Every ranked option has the address and base APY of one of the listed vaults. Its risk-adjusted APY is its base APY plus the adjusted APYs of its rewards. |
| YieldOptions.ListMorphoYieldOptions | api/agent_hack/yield_options.py:71-143 | A failure of the USDC lookup or of the vault listing propagates. Otherwise the result is the ranked options. |
| YieldOptions.SparkYieldOptions | api/agent_hack/yield_options.py:146-159 | A single option: name "Spark.fi", symbol "SPARK", the zero address, total, base and risk-adjusted APY all 12.5, no rewards, `totalDepositsUsd` and `totalDeposits` both 0, and created at time 0. |
| YieldOptions.GatheredFailure | api/agent_hack/yield_options.py:168-170 | The first failed list, in list order, is raised. |
| YieldOptions.GatheredSplit | api/agent_hack/yield_options.py:171 | With no failure, the gathered lists are concatenated in order. |
| YieldOptions.RaiseFirstOrConcat | api/agent_hack/yield_options.py:167-171 | The raising loop and the concatenating comprehension compute `Gathered`. |
| YieldOptions.AllYieldOptionsConcat | api/agent_hack/yield_options.py:162-171 | The combined list fails iff the Morpho list fails, with its error. Otherwise it is the Morpho ranking followed by the Spark option, not sorted again. |
| YieldOptions.ListAllYieldOptions | api/agent_hack/yield_options.py:162-171 | `list_all_yield_options` is `Gathered` of the Morpho result and the Spark list. |
| MorphoListVaultsAction.CalculateTokenQualityFactor | api/agent_hack/morpho_list_vaults_action.py:36-43 | The factor is 0.0 for a missing entry or a lookup that raised. Otherwise it is the weighted factor of the token (thresholds as above), and always in [0, 1]. |
| MorphoListVaultsAction.ResultMapAt | api/agent_hack/morpho_list_vaults_action.py:70-86 | A failed lookup stays in the map as its exception, under its own key only, and scores 0. Every other key keeps its own lookup's result. |
| MorphoListVaultsAction.DetailFor | api/agent_hack/morpho_list_vaults_action.py:83-97 | `qualityFactor` is `max(uniswapFactor, aerodromeFactor)`. `riskAdjustedApy` is `originalApy * qualityFactor`. Both factors come from the reward asset's own map entries. |
| MorphoListVaultsAction.DetailsFor | api/agent_hack/morpho_list_vaults_action.py:82-97 | `rewardDetails` is parallel to `rewardApys`. |
| MorphoListVaultsAction.SummariesFor | api/agent_hack/morpho_list_vaults_action.py:78-103 | One summary per vault, in vault order. |
| MorphoListVaultsAction.FactorsAgree | api/agent_hack/morpho_list_vaults_action.py:72-86 | Keeping exceptions in the map scores every address as the yield options, which narrow exceptions to None, do. |
| MorphoListVaultsAction.SumRiskAgree | api/agent_hack/morpho_list_vaults_action.py:80-89 | Over the same lookups, a vault's reward details add up to the same adjusted APY as its yield-option rewards. |
| MorphoListVaultsAction.RiskAdjustedAgrees | api/agent_hack/morpho_list_vaults_action.py:80-102 | A vault's summary and its yield option carry the same risk-adjusted APY. |
| MorphoListVaultsAction.MorphoListVaultsRanked | api/agent_hack/morpho_list_vaults_action.py:57-104 | A successful run was on `base-mainnet`. It has one summary per vault, as a permutation of the unsorted summaries. These are ordered by risk-adjusted APY, non-increasing, with ties in vault order. |
| MorphoListVaultsAction.MorphoListVaultsDecompose | api/agent_hack/morpho_list_vaults_action.py:78-104 | Every ranked summary is the summary of one of the listed vaults. Its risk-adjusted APY is that vault's base APY plus the adjusted APYs of its reward details, one detail per reward line. |
| MorphoListVaultsAction.SummaryOfListed | api/agent_hack/morpho_list_vaults_action.py:98-103 | Every summary, before sorting, is of a listed vault and decomposes as above. |
| MorphoListVaultsAction.SummarizeVault | api/agent_hack/morpho_list_vaults_action.py:80-102 | The inner loop with the `riskAdjustedApy` accumulator yields the base APY plus the sum of the details' adjusted APYs, with the details. |
| MorphoListVaultsAction.SummarizeVaults | api/agent_hack/morpho_list_vaults_action.py:78-103 | The outer loop appends one summary per vault, in vault order. |
| MorphoListVaultsAction.MorphoListVaults | api/agent_hack/morpho_list_vaults_action.py:57-104 | Any network but `base-mainnet` fails with UnsupportedNetwork before any lookup. A failure of the USDC lookup or of the vault listing propagates. Otherwise the result is the summaries sorted by risk-adjusted APY. |

## Left out

- File I/O, clocks and HTTP are modelled as values.
  - The cache directory is a map from path to file (items and age in milliseconds).
  - The remote endpoint is a finite script of responses. A request past the end of the script fails.
  - Reading a file and JSON parsing are identity on the items.
- Paging.FetchPages: an endpoint that answers full pages forever makes the source loop run forever. Over a finite script, that run ends in a failed request.
- A failed request, a body that is not JSON, and a missing key all become one Transport error. The distinct exception types are not modelled.
- `dataDict['variables']['skip']` is mutated in the caller's dictionary and stays set after the call. The model records the request sent each round, not the caller's dictionary.
- The GraphQL documents in `uniswap_queries` and `morpho_queries` are not part of this model. Queries carry only a name for their document.
- `lower()` is modelled on ASCII letters only. Unicode case mapping is not modelled.
- `Token` keeps only the fields the ranking reads. `whitelistPools` and the other numeric fields are not modelled.
- Pydantic's `model_validate` is not modelled. This covers `Token` (api/agent_hack/uniswap.py:67), `Asset` (backend/agent_hack/morpho.py:52, 66) and the vault records with their reward assets (backend/agent_hack/morpho.py:92). Records are already-typed values, so a malformed record, which raises a validation error in the source, cannot occur in the model.
- The API tree's `morpho` and `aerodrome` modules are not part of this model. The ranking takes their results, for the chain, as `YieldOptions.Upstream`. The backend versions of those modules are modelled.
- Each lookup has its own cache and its own response script. The dependence of the ranking on shared caches across calls is not modelled.
- Concurrency of `asyncio.gather` is not modelled. Its results are taken in order.
- Floats are modelled as exact reals. IEEE rounding is not modelled.
- `datetime.fromtimestamp` is not modelled: `creationDate` is kept as the timestamp.
- The JSON string that `morpho_list_vaults` returns, its prompt text and the tool wiring are not modelled.
- `print` and logging are not modelled.
- Timsort is modelled by its result: a stable descending insertion sort.
