/**
 * The on-disk JSON cache of `load_or_query`: one file per path holding a list of items,
 * with the age that `file_util.get_file_age_millis` reports.
 */
module Storage {
  import opened Wrappers

  /** A cache file: the items it holds (JSON round trip taken as identity) and its age. */
  datatype CacheFile<T> = CacheFile(items: seq<T>, ageMillis: nat)

  /** `cacheEntityName`, defaulting to `entityName` when it is None. */
  function CacheName(entityName: string, cacheEntityName: Option<string>): string {
    if cacheEntityName.None? then entityName else cacheEntityName.value
  }

  /** `f'{dir}{source}-{name}.json'`. */
  function CachePath(dir: string, source: string, name: string): string {
    dir + source + "-" + name + ".json"
  }

  /** Within one directory and source, distinct names use distinct cache files. */
  lemma CachePathInjective(dir: string, source: string, name1: string, name2: string)
    requires CachePath(dir, source, name1) == CachePath(dir, source, name2)
    ensures name1 == name2
  {
    var prefix := dir + source + "-";
    assert CachePath(dir, source, name1) == prefix + (name1 + ".json");
    assert CachePath(dir, source, name2) == prefix + (name2 + ".json");
    assert |name1| == |name2|;
    forall i | 0 <= i < |name1| ensures name1[i] == name2[i] {
      assert CachePath(dir, source, name1)[|prefix| + i] == name1[i];
      assert CachePath(dir, source, name2)[|prefix| + i] == name2[i];
    }
  }

  /**
   * The cache after a query: `if len(items) > 0: write_file(...)`. The file at `path` is
   * overwritten with exactly the fetched items when they are a non-empty list; a failed or
   * empty fetch leaves the cache as it was; no other file changes.
   */
  function Persist<T>(files: map<string, CacheFile<T>>, path: string, r: Result<seq<T>>): (m: map<string, CacheFile<T>>)
    ensures r.Ok? && |r.value| > 0 ==> path in m && m[path] == CacheFile(r.value, 0)
    ensures r.Err? || |r.value| == 0 ==> m == files
    ensures forall p :: p != path ==> (p in m <==> p in files) && (p in files ==> m[p] == files[p])
  {
    if r.Ok? && |r.value| > 0 then files[path := CacheFile(r.value, 0)] else files
  }

  /** The cache directory, as a map from file path to file. */
  class FileCache<T> {
    var files: map<string, CacheFile<T>>

    constructor (files: map<string, CacheFile<T>>)
      ensures this.files == files
    {
      this.files := files;
    }

    /** `file_util.write_file`: replaces the whole file; a file just written has age 0. */
    method Write(path: string, items: seq<T>)
      modifies this
      ensures files == old(files)[path := CacheFile(items, 0)]
    {
      files := files[path := CacheFile(items, 0)];
    }
  }
}
