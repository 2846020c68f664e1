/**
 * The backend's Uniswap module: an older single-request `load_or_query` that caches whatever
 * it receives, and the token lookup built on it.
 */
module BackendUniswap {
  import opened Wrappers
  import opened Paging
  import opened Storage
  import opened ApiUniswap
  import BackendUtil

  /**
   * An existing cache file under `../secrets/uniswap-{name}.json` is returned with no request.
   * Otherwise exactly one request is posted, unchanged and unpaged; its list is the result and
   * is written to the cache unconditionally, an empty list included.
   */
  method LoadOrQuery<T>(cache: FileCache<T>, entityName: string, q: Query, script: seq<Response<T>>,
                        cacheEntityName: Option<string>)
    returns (r: Result<seq<T>>, sent: seq<Query>)
    modifies cache
    ensures var path := CachePath(BackendUtil.CACHE_DIR, "uniswap", CacheName(entityName, cacheEntityName));
            if path in old(cache.files) then
              && r == Ok(old(cache.files)[path].items)
              && sent == []
              && cache.files == old(cache.files)
            else
              && sent == [q]
              && r == SinglePage(script)
              && cache.files == if r.Ok? then old(cache.files)[path := CacheFile(r.value, 0)] else old(cache.files)
  {
    var name := CacheName(entityName, cacheEntityName);
    var path := CachePath(BackendUtil.CACHE_DIR, "uniswap", name);
    if path in cache.files {
      r, sent := Ok(cache.files[path].items), [];
    } else {
      sent := [q];
      var response := ResponseAt(script, 0);
      if response.Failed? {
        return Err(Transport), sent;
      }
      r := Ok(response.items);
      cache.Write(path, response.items);
    }
  }

  /**
   * `get_token_by_address`: any chain but Base raises UnsupportedNetwork before any cache or
   * network access. On Base the query carries the address as given (not lower-cased), goes
   * through the single-request cache under `uniswap-token-{address}`, and the first token whose
   * id matches case-insensitively is returned, or NotFound.
   */
  method GetTokenByAddress(cache: FileCache<Token>, chainId: int, tokenAddress: string, apiKey: string,
                           script: seq<Response<Token>>)
    returns (r: Result<Token>, sent: seq<Query>)
    modifies cache
    ensures chainId != BASE_CHAIN_ID ==>
              r == Err(UnsupportedNetwork) && sent == [] && cache.files == old(cache.files)
    ensures chainId == BASE_CHAIN_ID ==>
              var path := CachePath(BackendUtil.CACHE_DIR, "uniswap", "token-" + tokenAddress);
              if path in old(cache.files) then
                && sent == []
                && cache.files == old(cache.files)
                && r == FindToken(old(cache.files)[path].items, tokenAddress)
              else
                && sent == [TokenQuery(SubgraphUrl(apiKey, UNISWAP_SUBGRAPH_ID), tokenAddress)]
                && cache.files == (if SinglePage(script).Ok?
                                   then old(cache.files)[path := CacheFile(SinglePage(script).value, 0)]
                                   else old(cache.files))
                && r == SelectToken(SinglePage(script), tokenAddress)
  {
    if chainId != BASE_CHAIN_ID {
      return Err(UnsupportedNetwork), [];
    }
    var queryUrl := SubgraphUrl(apiKey, UNISWAP_SUBGRAPH_ID);
    var tokens;
    tokens, sent := LoadOrQuery(cache, "tokens", TokenQuery(queryUrl, tokenAddress), script, Some("token-" + tokenAddress));
    r := SelectToken(tokens, tokenAddress);
  }
}
