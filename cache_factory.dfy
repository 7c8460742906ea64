/**
 * The cache factory: picks the application cache when the staging
 * environment provides one, and otherwise a download cache rooted at the
 * temporary directory, to which it hands the process-wide URL for which
 * insecure HTTPS is allowed.
 *
 * The factory's setting lives on the class itself, so one `CacheFactory`
 * object stands for the whole process. Before `AllowedUrl` is first called the
 * setting is unset (`None`, Ruby's `nil`): the `'none'` string in the class
 * body initialises a variable of the singleton class, not the one that
 * `create` and `allowed_url` read and write.
 */
module CacheFactory {
  import opened Wrappers

  /**
   * The caches the factory builds; their internals are not modelled. Each
   * holds the URL for which unsafe HTTPS is allowed; a cache to which the
   * factory assigns nothing reads it as unset.
   */
  datatype Cache =
    | ApplicationCache(allowedUrlForUnsafeHttps: Option<string>)
    | DownloadCache(root: string, resourcesDir: string, allowedUrlForUnsafeHttps: Option<string>)

  /**
   * `cache.is_a? DownloadCache`. A download cache always is one; whether an
   * application cache is one depends on the class hierarchy of the two cache
   * classes, which is given as `applicationCacheIsADownloadCache`.
   */
  predicate IsADownloadCache(cache: Cache, applicationCacheIsADownloadCache: bool)
  {
    cache.DownloadCache? || applicationCacheIsADownloadCache
  }

  /** The value a setting holds after the given sequence of writes: the last
      one, or unset when there was none. */
  function MostRecent(writes: seq<Option<string>>): Option<string>
  {
    if writes == [] then None else writes[|writes| - 1]
  }

  /** A write followed by further writes is overridden by the last of them. */
  lemma LastWriterWins(before: seq<Option<string>>, after: seq<Option<string>>)
    requires after != []
    ensures MostRecent(before + after) == MostRecent(after)
  {
    assert (before + after)[|before + after| - 1] == after[|after| - 1];
  }

  class CacheFactory {
    /** The URL for which certificate checks may be skipped; `None` is unset. */
    var allowedUrlForInsecureHttps: Option<string>

    /** Every value passed to `AllowedUrl`, oldest first. */
    ghost var writes: seq<Option<string>>

    ghost predicate Valid()
      reads this
    {
      allowedUrlForInsecureHttps == MostRecent(writes)
    }

    /** The process starts with the setting unset. */
    constructor ()
      ensures Valid() && writes == []
      ensures allowedUrlForInsecureHttps == None
    {
      allowedUrlForInsecureHttps := None;
      writes := [];
    }

    /**
     * `create`: the application cache when it is available, otherwise a
     * download cache rooted at `tmpdir` with `cachedResourcesDirectory`. The
     * most recently allowed URL is assigned to the new cache when it is a
     * `DownloadCache`; the setting is only read.
     */
    method Create(applicationCacheAvailable: bool, applicationCacheIsADownloadCache: bool,
                  tmpdir: string, cachedResourcesDirectory: string)
      returns (cache: Cache)
      requires Valid()
      ensures cache.ApplicationCache? <==> applicationCacheAvailable
      ensures !applicationCacheAvailable ==>
        cache.root == tmpdir && cache.resourcesDir == cachedResourcesDirectory
      ensures cache.allowedUrlForUnsafeHttps
           == if IsADownloadCache(cache, applicationCacheIsADownloadCache) then MostRecent(writes) else None
    {
      if applicationCacheAvailable {
        cache := ApplicationCache(None);
      } else {
        cache := DownloadCache(tmpdir, cachedResourcesDirectory, None);
      }
      if IsADownloadCache(cache, applicationCacheIsADownloadCache) {
        cache := cache.(allowedUrlForUnsafeHttps := allowedUrlForInsecureHttps);
      }
    }

    /** `allowed_url`: overwrites the setting. */
    method AllowedUrl(url: Option<string>)
      requires Valid()
      modifies this
      ensures Valid() && writes == old(writes) + [url]
      ensures allowedUrlForInsecureHttps == url
    {
      allowedUrlForInsecureHttps := url;
      writes := writes + [url];
    }
  }

  /**
   * A process that creates a download cache, then allows `url`, then creates
   * another: the first cache saw the unset value (not the string "none") and
   * keeps it, the second sees `url`, and creating changed no setting.
   */
  method CreateAllowCreate(url: string, tmpdir: string, cachedResourcesDirectory: string)
    returns (first: Cache, second: Cache)
    ensures first == DownloadCache(tmpdir, cachedResourcesDirectory, None)
    ensures first.allowedUrlForUnsafeHttps != Some("none")
    ensures second == DownloadCache(tmpdir, cachedResourcesDirectory, Some(url))
  {
    var factory := new CacheFactory();
    first := factory.Create(false, true, tmpdir, cachedResourcesDirectory);
    factory.AllowedUrl(Some(url));
    second := factory.Create(false, true, tmpdir, cachedResourcesDirectory);
  }
}
