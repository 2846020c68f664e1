/**
 * Token lookup on the Uniswap subgraph (API service): a chain check, one inlined query through
 * the TTL cache, then the first token whose id matches the address case-insensitively.
 */
module ApiUniswap {
  import opened Wrappers
  import opened Seqs
  import opened Text
  import opened Paging
  import opened Storage
  import ApiUtil

  /** Base mainnet, the only supported chain. */
  const BASE_CHAIN_ID := 8453
  const GRAPH_GATEWAY := "https://gateway.thegraph.com/api/"
  const UNISWAP_SUBGRAPH_ID := "GqzP4Xaehti8KSfQmv3ZctFSjnSUYZ4En5NRsiTbvZpz"
  /** Stands for the `uniswap_queries.GET_TOKEN` document, whose text is not part of this model. */
  const GET_TOKEN := "GET_TOKEN"

  /** The subgraph URL; `apiKey` is the `GRAPH_API_KEY` environment variable. */
  function SubgraphUrl(apiKey: string, subgraphId: string): string {
    GRAPH_GATEWAY + apiKey + "/subgraphs/id/" + subgraphId
  }

  /** `TokenWithPools`: the token fields the ranking reads (`address` is the subgraph's `id`). */
  datatype Token = Token(
    address: string,
    name: string,
    symbol: string,
    decimals: int,
    totalSupply: int,
    volumeUSD: real,
    txCount: int,
    totalValueLockedUSD: real)

  /** The token query with its `tokenAddress` variable. */
  function TokenQuery(url: string, tokenAddress: string): Query {
    Query(url, GET_TOKEN, map["tokenAddress" := Str(tokenAddress)])
  }

  /** `tokenDict['id'].lower() == tokenAddress.lower()`. */
  function HasAddress(address: string): Token -> bool {
    (t: Token) => EqualsIgnoreCase(t.address, address)
  }

  /**
   * `next(...)` over the loaded tokens, or NotFound: the first token whose id equals the
   * address case-insensitively; NotFound exactly when no token matches.
   */
  function FindToken(tokens: seq<Token>, address: string): (r: Result<Token>)
    ensures r.Err? <==> forall j :: 0 <= j < |tokens| ==> !EqualsIgnoreCase(tokens[j].address, address)
    ensures r.Err? ==> r.error == NotFound
    ensures r.Ok? ==> exists i :: 0 <= i < |tokens| && tokens[i] == r.value
                         && EqualsIgnoreCase(r.value.address, address)
                         && forall j :: 0 <= j < i ==> !EqualsIgnoreCase(tokens[j].address, address)
  {
    match FirstMatch(tokens, HasAddress(address))
    case Some(t) => Ok(t)
    case None => Err(NotFound)
  }

  /** A lookup on loaded items: a failed load propagates, otherwise the first match. */
  function SelectToken(loaded: Result<seq<Token>>, address: string): Result<Token> {
    match loaded
    case Err(e) => Err(e)
    case Ok(tokens) => FindToken(tokens, address)
  }

  /** The query variable is lower-cased, and a lower-cased address selects the same token. */
  lemma FindTokenLowered(tokens: seq<Token>, address: string)
    ensures FindToken(tokens, Lower(address)) == FindToken(tokens, address)
  {
    forall j | 0 <= j < |tokens|
      ensures HasAddress(Lower(address))(tokens[j]) == HasAddress(address)(tokens[j])
    {
      EqualsIgnoreCaseLower(tokens[j].address, address);
    }
    FirstMatchAgree(tokens, HasAddress(Lower(address)), HasAddress(address));
  }

  /**
   * `get_token_by_address`: any chain but Base raises UnsupportedNetwork before any cache or
   * network access. On Base it goes through the TTL cache under `uniswap-token-{address}`;
   * on a miss it posts exactly one query (inlined items, so no paging) whose `tokenAddress`
   * is lower-cased, caches a non-empty answer, and selects the first case-insensitive match.
   */
  method GetTokenByAddress(cache: FileCache<Token>, chainId: int, tokenAddress: string, apiKey: string,
                           script: seq<Response<Token>>)
    returns (r: Result<Token>, sent: seq<Query>)
    modifies cache
    ensures chainId != BASE_CHAIN_ID ==>
              r == Err(UnsupportedNetwork) && sent == [] && cache.files == old(cache.files)
    ensures chainId == BASE_CHAIN_ID ==>
              var path := CachePath(ApiUtil.CACHE_DIR, "uniswap", "token-" + tokenAddress);
              if ApiUtil.ServesCache(old(cache.files), path, ApiUtil.DEFAULT_EXPIRY_SECONDS) then
                && sent == []
                && cache.files == old(cache.files)
                && r == FindToken(old(cache.files)[path].items, tokenAddress)
              else
                && sent == [WithSkip(TokenQuery(SubgraphUrl(apiKey, UNISWAP_SUBGRAPH_ID), Lower(tokenAddress)), 0)]
                && cache.files == Persist(old(cache.files), path, SinglePage(script))
                && r == SelectToken(SinglePage(script), tokenAddress)
  {
    if chainId != BASE_CHAIN_ID {
      return Err(UnsupportedNetwork), [];
    }
    var queryUrl := SubgraphUrl(apiKey, UNISWAP_SUBGRAPH_ID);
    var q := TokenQuery(queryUrl, Lower(tokenAddress));
    FetchInlined(q, script);
    var tokens;
    tokens, sent := ApiUtil.LoadOrQuery(cache, "uniswap", "tokens", q, script, Some("token-" + tokenAddress),
                                        true, ApiUtil.DEFAULT_EXPIRY_SECONDS);
    r := SelectToken(tokens, tokenAddress);
  }
}
