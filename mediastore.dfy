/**
 * The local media cache (`mediaStore`): one object store of blobs keyed by path-like
 * strings. Opening the database always succeeds here, and each request completes
 * before the next begins. `log` records the requests in the order they were made.
 */
module MediaStore {
  import opened Wrappers
  import opened BlobUrls

  /** A request made to the object store. */
  datatype Request = Put(key: string) | Get(key: string) | ClearAll

  class Store {
    var objects: map<string, Blob>
    const urls: UrlRegistry
    ghost var log: seq<Request>

    constructor (urls: UrlRegistry)
      ensures objects == map[] && log == [] && this.urls == urls
    {
      objects := map[];
      this.urls := urls;
      log := [];
    }

    /** `saveVideo`: `put` overwrites whatever the key held and touches no other key. */
    method SaveVideo(key: string, blob: Blob)
      modifies this
      ensures objects == old(objects)[key := blob]
      ensures log == old(log) + [Put(key)]
    {
      objects := objects[key := blob];
      log := log + [Put(key)];
    }

    /**
     * `getVideoUrl`: null exactly when nothing is stored under `key`; on a hit, a URL
     * never handed out before, resolving to the stored blob. Only the URL table and
     * the request log change: the stored blobs do not.
     */
    method GetVideoUrl(key: string) returns (url: Option<ObjectUrl>)
      requires urls.Valid()
      modifies urls, this`log
      ensures urls.Valid() && objects == old(objects)
      ensures log == old(log) + [Get(key)]
      ensures url.None? <==> key !in objects
      ensures url.None? ==> urls.table == old(urls.table) && urls.next == old(urls.next)
      ensures url.Some? ==>
        && url.value !in old(urls.table)
        && urls.table == old(urls.table)[url.value := objects[key]]
        && urls.next == old(urls.next) + 1
    {
      log := log + [Get(key)];
      if key in objects {
        var u := urls.CreateObjectUrl(objects[key]);
        url := Some(u);
      } else {
        url := None;
      }
    }

    /** `clear`: every key is gone; URLs already handed out stay valid. */
    method Clear()
      modifies this
      ensures objects == map[]
      ensures log == old(log) + [ClearAll]
    {
      objects := map[];
      log := log + [ClearAll];
    }
  }

  /** Saving then looking up the same key yields two different URLs for the saved blob. */
  method SaveThenResolveTwice(store: Store, key: string, blob: Blob) returns (a: Option<ObjectUrl>, b: Option<ObjectUrl>)
    requires store.urls.Valid()
    modifies store, store.urls
    ensures store.objects == old(store.objects)[key := blob]
    ensures a.Some? && b.Some? && a.value != b.value
    ensures a.value in store.urls.table && store.urls.table[a.value] == blob
    ensures b.value in store.urls.table && store.urls.table[b.value] == blob
  {
    store.SaveVideo(key, blob);
    a := store.GetVideoUrl(key);
    b := store.GetVideoUrl(key);
  }

  /** After `clear`, every lookup misses. */
  method ClearThenResolve(store: Store, key: string) returns (url: Option<ObjectUrl>)
    requires store.urls.Valid()
    modifies store, store.urls
    ensures url == None
  {
    store.Clear();
    url := store.GetVideoUrl(key);
  }
}
