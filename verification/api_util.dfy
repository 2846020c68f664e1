/**
 * `load_or_query` of the API service: serve the cache file while it is younger than
 * `expirySeconds`, otherwise page through the entity and cache the result when it is not empty.
 */
module ApiUtil {
  import opened Wrappers
  import opened Paging
  import opened Storage

  const CACHE_DIR := "./data/"
  const DEFAULT_EXPIRY_SECONDS := 3600

  /** The cache file exists and `fileAgeMillis / 1000 < expirySeconds` (true division). */
  predicate ServesCache<T>(files: map<string, CacheFile<T>>, path: string, expirySeconds: int) {
    path in files && (files[path].ageMillis as real) / 1000.0 < expirySeconds as real
  }

  /** Serving is decided in whole milliseconds: the file is younger than expirySeconds * 1000 ms. */
  lemma ServesCacheInMillis<T>(files: map<string, CacheFile<T>>, path: string, expirySeconds: int)
    ensures ServesCache(files, path, expirySeconds)
        <==> path in files && files[path].ageMillis < 1000 * expirySeconds
  {
  }

  /**
   * A fresh cache file is returned as is, with no request. Otherwise the pagination loop
   * runs (`Fetch`), and the cache is overwritten with exactly the fetched items iff they
   * are a non-empty list; a failed or empty fetch leaves the cache as it was.
   */
  method LoadOrQuery<T>(cache: FileCache<T>, source: string, entityName: string, q: Query,
                        script: seq<Response<T>>, cacheEntityName: Option<string>,
                        hasInlinedItems: bool, expirySeconds: int)
    returns (r: Result<seq<T>>, sent: seq<Query>)
    modifies cache
    ensures var path := CachePath(CACHE_DIR, source, CacheName(entityName, cacheEntityName));
            if ServesCache(old(cache.files), path, expirySeconds) then
              && r == Ok(old(cache.files)[path].items)
              && sent == []
              && cache.files == old(cache.files)
            else
              && Fetched(r, sent) == Fetch(q, script, hasInlinedItems)
              && cache.files == Persist(old(cache.files), path, r)
  {
    var name := CacheName(entityName, cacheEntityName);
    var path := CachePath(CACHE_DIR, source, name);
    var fileExists := path in cache.files;
    var fileAgeMillis := if fileExists then cache.files[path].ageMillis else 0;
    if fileExists && (fileAgeMillis as real) / 1000.0 < expirySeconds as real {
      r, sent := Ok(cache.files[path].items), [];
    } else {
      r, sent := FetchPages(q, script, hasInlinedItems);
      if r.Ok? && |r.value| > 0 {
        cache.Write(path, r.value);
      }
    }
  }
}
