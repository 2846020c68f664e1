/**
 * Token lookup on the Aerodrome subgraph: a chain check, one inlined query through the
 * backend cache, then the first token whose id matches the address case-insensitively.
 */
module Aerodrome {
  import opened Wrappers
  import opened Text
  import opened Paging
  import opened Storage
  import opened ApiUniswap
  import BackendUtil

  const AERODROME_SUBGRAPH_ID := "GENunSHWLBXm59mBSgPzQ8metBEp9YDfdqwFr91Av1UM"

  /**
   * `get_token_by_address`: any chain but Base raises UnsupportedNetwork before any query.
   * On Base an existing cache file `aerodrome-token-{address}` is used as is; otherwise exactly
   * one query is posted (inlined items) with the lower-cased address, a non-empty answer is
   * cached, and the first case-insensitive id match is returned, or NotFound.
   */
  method GetTokenByAddress(cache: FileCache<Token>, chainId: int, tokenAddress: string, apiKey: string,
                           script: seq<Response<Token>>)
    returns (r: Result<Token>, sent: seq<Query>)
    modifies cache
    ensures chainId != BASE_CHAIN_ID ==>
              r == Err(UnsupportedNetwork) && sent == [] && cache.files == old(cache.files)
    ensures chainId == BASE_CHAIN_ID ==>
              var path := CachePath(BackendUtil.CACHE_DIR, "aerodrome", "token-" + tokenAddress);
              if path in old(cache.files) then
                && sent == []
                && cache.files == old(cache.files)
                && r == FindToken(old(cache.files)[path].items, tokenAddress)
              else
                && sent == [WithSkip(TokenQuery(SubgraphUrl(apiKey, AERODROME_SUBGRAPH_ID), Lower(tokenAddress)), 0)]
                && cache.files == Persist(old(cache.files), path, SinglePage(script))
                && r == SelectToken(SinglePage(script), tokenAddress)
  {
    if chainId != BASE_CHAIN_ID {
      return Err(UnsupportedNetwork), [];
    }
    var queryUrl := SubgraphUrl(apiKey, AERODROME_SUBGRAPH_ID);
    var q := TokenQuery(queryUrl, Lower(tokenAddress));
    FetchInlined(q, script);
    var tokens;
    tokens, sent := BackendUtil.LoadOrQuery(cache, "aerodrome", "tokens", q, script, Some("token-" + tokenAddress), true);
    r := SelectToken(tokens, tokenAddress);
  }
}
