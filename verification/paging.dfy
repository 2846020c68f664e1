/**
 * The request side of `load_or_query`: the GraphQL POST it issues, the responses it reads,
 * and the `while True` loop that pages through an entity with a growing `skip` offset.
 * The remote endpoint is a finite script of responses: the k-th request receives the k-th
 * response, and a request past the end of the script fails.
 */
module Paging {
  import opened Wrappers

  /** A GraphQL variable value. */
  datatype Value = Int(i: int) | Str(s: string)

  /** One POST to `url` with `dataDict = {'query': document, 'variables': variables}`. */
  datatype Query = Query(url: string, document: string, variables: map<string, Value>)

  /** `pageInfo` of a paged entity. */
  datatype PageInfo = PageInfo(count: int, limit: int)

  /**
   * What one request yields: `data['data'][entityName]`, that is the items (the list itself
   * for inlined entities, its `items` otherwise) and `pageInfo` when present; or Failed when
   * the request raised (transport error, a body that is not JSON, a missing key).
   */
  datatype Response<T> = Page(items: seq<T>, pageInfo: Option<PageInfo>) | Failed

  /** `dataDict['variables']['skip'] = skip`. */
  function WithSkip(q: Query, skip: nat): Query {
    q.(variables := q.variables["skip" := Int(skip)])
  }

  /** The response to the k-th request. */
  function ResponseAt<T>(script: seq<Response<T>>, k: nat): Response<T> {
    if k < |script| then script[k] else Failed
  }

  /** The loop breaks after this page: inlined items, no `pageInfo`, or `count < limit`. */
  predicate IsLastPage<T>(r: Response<T>, inlined: bool)
    requires r.Page?
  {
    inlined || r.pageInfo.None? || r.pageInfo.value.count < r.pageInfo.value.limit
  }

  /** A page after which the loop asks for the next one. */
  predicate IsFullPage<T>(r: Response<T>, inlined: bool) {
    r.Page? && !IsLastPage(r, inlined)
  }

  function ItemsOf<T>(r: Response<T>): seq<T> {
    if r.Page? then r.items else []
  }

  /** The items of the given responses, concatenated in request order. */
  function Collected<T>(pages: seq<Response<T>>): seq<T> {
    if |pages| == 0 then [] else Collected(pages[..|pages| - 1]) + ItemsOf(pages[|pages| - 1])
  }

  /** The outcome of a fetch: the items or the error raised, and every request posted, in order. */
  datatype Fetched<T> = Fetched(result: Result<seq<T>>, sent: seq<Query>)

  /** The loop from request k on, with `items` collected and `sent` posted so far. */
  function FetchFrom<T>(q: Query, script: seq<Response<T>>, inlined: bool, k: nat, items: seq<T>, sent: seq<Query>): Fetched<T>
    decreases |script| - k
  {
    var sent' := sent + [WithSkip(q, |items|)];
    var response := ResponseAt(script, k);
    if response.Failed? then Fetched(Err(Transport), sent')
    else if IsLastPage(response, inlined) then Fetched(Ok(items + response.items), sent')
    else FetchFrom(q, script, inlined, k + 1, items + response.items, sent')
  }

  /** What the query branch of `load_or_query` does, starting from no items. */
  function Fetch<T>(q: Query, script: seq<Response<T>>, inlined: bool): Fetched<T> {
    FetchFrom(q, script, inlined, 0, [], [])
  }

  /**
   * The run of the loop described request by request: with n requests posted,
   * - request j carries `skip` = the number of items collected before it;
   * - every page but the n-th was full, and the n-th response is not a full page;
   * - the run succeeds iff the n-th response is a page, and then the result is the
   *   concatenation of the n pages' items in request order; otherwise it raised.
   */
  ghost predicate PagedRun<T>(q: Query, script: seq<Response<T>>, inlined: bool, f: Fetched<T>) {
    var n := |f.sent|;
    && 1 <= n <= |script| + 1
    && (forall j :: 0 <= j < n ==> f.sent[j] == WithSkip(q, |Collected(script[..j])|))
    && (forall j :: 0 <= j < n - 1 ==> IsFullPage(script[j], inlined))
    && !IsFullPage(ResponseAt(script, n - 1), inlined)
    && (f.result.Ok? <==> ResponseAt(script, n - 1).Page?)
    && (f.result.Ok? ==> n <= |script| && f.result.value == Collected(script[..n]))
    && (f.result.Err? ==> f.result.error == Transport)
  }

  lemma {:induction false} FetchFromIsPagedRun<T>(q: Query, script: seq<Response<T>>, inlined: bool, k: nat, items: seq<T>, sent: seq<Query>)
    requires k <= |script| && |sent| == k
    requires items == Collected(script[..k])
    requires forall j :: 0 <= j < k ==> sent[j] == WithSkip(q, |Collected(script[..j])|)
    requires forall j :: 0 <= j < k ==> IsFullPage(script[j], inlined)
    ensures PagedRun(q, script, inlined, FetchFrom(q, script, inlined, k, items, sent))
    decreases |script| - k
  {
    var response := ResponseAt(script, k);
    var sent' := sent + [WithSkip(q, |items|)];
    var f := FetchFrom(q, script, inlined, k, items, sent);
    if response.Failed? || IsLastPage(response, inlined) {
      StopIsPagedRun(q, script, inlined, k, items, sent);
    } else {
      assert script[..k + 1][..k] == script[..k];
      assert Collected(script[..k + 1]) == items + response.items;
      assert f == FetchFrom(q, script, inlined, k + 1, items + response.items, sent');
      FetchFromIsPagedRun(q, script, inlined, k + 1, items + response.items, sent');
    }
  }

  /** The case of FetchFromIsPagedRun where request k is the last one. */
  lemma StopIsPagedRun<T>(q: Query, script: seq<Response<T>>, inlined: bool, k: nat, items: seq<T>, sent: seq<Query>)
    requires k <= |script| && |sent| == k
    requires items == Collected(script[..k])
    requires forall j :: 0 <= j < k ==> sent[j] == WithSkip(q, |Collected(script[..j])|)
    requires forall j :: 0 <= j < k ==> IsFullPage(script[j], inlined)
    requires !IsFullPage(ResponseAt(script, k), inlined)
    ensures PagedRun(q, script, inlined, FetchFrom(q, script, inlined, k, items, sent))
  {
    var response := ResponseAt(script, k);
    var sent' := sent + [WithSkip(q, |items|)];
    var f := FetchFrom(q, script, inlined, k, items, sent);
    assert f.sent == sent';
    assert forall j :: 0 <= j < k + 1 ==> sent'[j] == WithSkip(q, |Collected(script[..j])|);
    if response.Page? {
      assert script[..k + 1][..k] == script[..k];
      assert Collected(script[..k + 1]) == items + response.items;
      assert f.result == Ok(items + response.items);
    } else {
      assert f.result == Err(Transport);
    }
  }

  /** The pagination loop stops at the first page that is not full, with `skip` = items so far. */
  lemma FetchIsPagedRun<T>(q: Query, script: seq<Response<T>>, inlined: bool)
    ensures PagedRun(q, script, inlined, Fetch(q, script, inlined))
  {
    FetchFromIsPagedRun(q, script, inlined, 0, [], []);
  }

  /** With inlined items there is exactly one request, with skip 0, and its list is the result. */
  lemma FetchInlined<T>(q: Query, script: seq<Response<T>>)
    ensures Fetch(q, script, true) == Fetched(SinglePage(script), [WithSkip(q, 0)])
  {
    var response := ResponseAt(script, 0);
    if response.Page? {
      assert [] + response.items == response.items;
    }
  }

  /** The outcome of one unpaged request. */
  function SinglePage<T>(script: seq<Response<T>>): Result<seq<T>> {
    match ResponseAt(script, 0)
    case Page(items, _) => Ok(items)
    case Failed => Err(Transport)
  }

  /** The `while True` loop of `load_or_query`, which both util.py files share. */
  method FetchPages<T>(q: Query, script: seq<Response<T>>, inlined: bool) returns (r: Result<seq<T>>, sent: seq<Query>)
    ensures Fetched(r, sent) == Fetch(q, script, inlined)
  {
    var items: seq<T> := [];
    sent := [];
    var k := 0;
    while true
      invariant k <= |script|
      invariant Fetch(q, script, inlined) == FetchFrom(q, script, inlined, k, items, sent)
      decreases |script| - k
    {
      sent := sent + [WithSkip(q, |items|)];
      var response := ResponseAt(script, k);
      if response.Failed? {
        return Err(Transport), sent;
      }
      var pageInfo: Option<PageInfo>;
      if inlined {
        items := items + response.items;
        pageInfo := None;
      } else {
        items := items + response.items;
        pageInfo := response.pageInfo;
      }
      if pageInfo.None? {
        break;
      }
      if pageInfo.value.count < pageInfo.value.limit {
        break;
      }
      k := k + 1;
    }
    r := Ok(items);
  }
}
