/**
 * `load_or_query` of the backend: serve the cache file whenever it exists, whatever its age;
 * otherwise page through the entity and cache the result when it is not empty.
 */
module BackendUtil {
  import opened Wrappers
  import opened Paging
  import opened Storage

  const CACHE_DIR := "../secrets/"

  /**
   * An existing cache file is returned as is, with no request. Otherwise the pagination
   * loop runs, and the cache is written with the fetched items iff they are a non-empty list.
   */
  method LoadOrQuery<T>(cache: FileCache<T>, source: string, entityName: string, q: Query,
                        script: seq<Response<T>>, cacheEntityName: Option<string>, hasInlinedItems: bool)
    returns (r: Result<seq<T>>, sent: seq<Query>)
    modifies cache
    ensures var path := CachePath(CACHE_DIR, source, CacheName(entityName, cacheEntityName));
            if path in old(cache.files) then
              && r == Ok(old(cache.files)[path].items)
              && sent == []
              && cache.files == old(cache.files)
            else
              && Fetched(r, sent) == Fetch(q, script, hasInlinedItems)
              && cache.files == Persist(old(cache.files), path, r)
  {
    var name := CacheName(entityName, cacheEntityName);
    var path := CachePath(CACHE_DIR, source, name);
    if path in cache.files {
      r, sent := Ok(cache.files[path].items), [];
    } else {
      r, sent := FetchPages(q, script, hasInlinedItems);
      if r.Ok? && |r.value| > 0 {
        cache.Write(path, r.value);
      }
    }
  }

  /** What `load_or_query` returns and which requests it posts, given the cache before the call. */
  function Load<T>(files: map<string, CacheFile<T>>, path: string, q: Query, script: seq<Response<T>>,
                   inlined: bool): Fetched<T> {
    if path in files then Fetched(Ok(files[path].items), []) else Fetch(q, script, inlined)
  }

  /** The cache after `load_or_query` produced `r`. */
  function CacheAfter<T>(files: map<string, CacheFile<T>>, path: string, r: Result<seq<T>>): map<string, CacheFile<T>> {
    if path in files then files else Persist(files, path, r)
  }
}
