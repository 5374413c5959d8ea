/** The cache-aside lookup of the blob-only tile layer plug-in
    (L.TileLayer.Cache.Blob.js). */
module TileBlob {
  import opened CacheCore
  import TileBlob10

  /** `_loadTileBlob`: with the cache off the promise is rejected outright. */
  function LoadTileBlob(o: Options, s: Store, url: string): (p: Probe)
    ensures p.Skipped? <==> !o.useCache
    ensures p.Probed? ==> p.data == Get(s, url)
  {
    if o.useCache then Probed(Get(s, url)) else Skipped
  }

  /** `_onCacheLookup` of the blob-only plug-in. */
  function OnCacheLookup(url: string, data: Option<Record>, o: Options, now: int, net: Fetch): (r: Decision)
    // a request goes out for a stale record when online, and for an online miss only when saving
    ensures r.fetched <==> (if data.Some? then Refresh(data.value, o, now) else !o.useOnlyCache && o.saveToCache)
    ensures r.write.Some? ==> r.fetched && net.Fetched? && o.saveToCache &&
                              r.write.value == BlobDoc(url, net.body, now)
    ensures r.settle.Rejected? <==> data.None? && (o.useOnlyCache || !o.saveToCache || !net.Fetched?)
    ensures r.settle.Resolved? && r.settle.origin == FromNetwork ==> net.Fetched? && r.settle.d == Bin(net.body)
    ensures !r.settle.Unsettled?
  {
    match data
    case Some(rec) =>
      if Refresh(rec, o, now) then
        (match net
         case Fetched(blob) =>
           Decision(Resolved(Bin(blob), FromNetwork), true,
                    if o.saveToCache then Some(BlobDoc(url, blob, now)) else None)
         case _ => Decision(Resolved(rec.data, StaleFallback), true, None))
      else
        Decision(Resolved(rec.data, FromCache), false, None)
    case None =>
      if o.useOnlyCache then
        Decision(Rejected, false, None)
      else if o.saveToCache then
        match net
        case Fetched(blob) => Decision(Resolved(Bin(blob), FromNetwork), true, Some(BlobDoc(url, blob, now)))
        case _ => Decision(Rejected, true, None)
      else
        Decision(Rejected, false, None)
  }

  /** The tile after `_loadTile`: the object URL of the resolved blob, or, on any
      rejection (including a payload `createObjectURL` refuses), the tile URL
      loaded directly; together with the write the lookup made. */
  function LoadTile(o: Options, s: Store, url: string, now: int, net: Fetch): (r: (Src, Option<Record>))
    ensures !o.useCache ==> r == (UrlSrc(url), None)
    ensures r.0 == UrlSrc(url) || r.0.ObjectSrc?
    ensures r.0.ObjectSrc? ==> o.useCache
    ensures r.0.ObjectSrc? && url in s ==>
              Bin(r.0.blob) == s[url].data || (Refresh(s[url], o, now) && net == Fetched(r.0.blob))
    ensures r.0.ObjectSrc? && url !in s ==> net == Fetched(r.0.blob)
    // with the cache on, the tile shows an object URL exactly when the lookup
    // resolves with a blob; any rejection (or a payload `createObjectURL`
    // refuses) makes the catch load the tile URL
    ensures o.useCache ==>
              var d := OnCacheLookup(url, Get(s, url), o, now, net);
              (r.0.ObjectSrc? <==> d.settle.Resolved? && d.settle.d.Bin?) &&
              (r.0.ObjectSrc? ==> r.0.blob == d.settle.d.bytes) &&
              (d.settle.Rejected? ==> r.0 == UrlSrc(url))
    ensures r.1 == (if o.useCache then OnCacheLookup(url, Get(s, url), o, now, net).write else None)
  {
    match LoadTileBlob(o, s, url)
    case Skipped => (UrlSrc(url), None)
    case Probed(data) =>
      var d := OnCacheLookup(url, data, o, now, net);
      match d.settle
      case Resolved(p, _) =>
        (match ObjectUrl(p)
         case Some(b) => (ObjectSrc(b), d.write)
         case None => (UrlSrc(url), d.write))
      case _ => (UrlSrc(url), d.write)
  }

  /** Same freshness rule as every plug-in: a present record is served as
      stored, without a request, unless it is stale and the layer is online. */
  lemma FreshHitServesCached(url: string, rec: Record, o: Options, now: int, net: Fetch)
    requires now <= rec.stamp + o.cacheMaxAge || o.useOnlyCache
    ensures OnCacheLookup(url, Some(rec), o, now, net) == Decision(Resolved(rec.data, FromCache), false, None)
  {
  }

  /** Stale refresh returns the new blob (saved only when saving is on), or the
      stale payload when the fetch fails. */
  lemma StaleRefresh(url: string, rec: Record, o: Options, now: int, net: Fetch)
    requires Refresh(rec, o, now)
    ensures var r := OnCacheLookup(url, Some(rec), o, now, net);
            r.fetched &&
            (net.Fetched? ==> r.settle == Resolved(Bin(net.body), FromNetwork) &&
                              (r.write.Some? <==> o.saveToCache)) &&
            (!net.Fetched? ==> r.settle == Resolved(rec.data, StaleFallback) && r.write.None?)
  {
  }

  /** On an online miss without saving this plug-in rejects with no request
      (and the tile falls back to its URL), where the Blob10 plug-in fetches
      and serves the blob unsaved. With saving on, and in the blob format,
      the two plug-ins decide alike on every input. */
  lemma DiffersFromBlob10OnlyOnUnsavedMiss(url: string, data: Option<Record>, o: Options, now: int, net: Fetch, codec: Codec)
    ensures o.saveToCache ==>
              OnCacheLookup(url, data, o, now, net) == TileBlob10.OnCacheLookup(url, data, o, now, net, true, codec)
    ensures !o.saveToCache && data.None? && !o.useOnlyCache ==>
              OnCacheLookup(url, data, o, now, net) == Decision(Rejected, false, None) &&
              TileBlob10.OnCacheLookup(url, data, o, now, net, true, codec).fetched &&
              (net.Fetched? ==> TileBlob10.OnCacheLookup(url, data, o, now, net, true, codec) ==
                                  Decision(Resolved(Bin(net.body), FromNetwork), true, None))
    ensures !o.saveToCache && (data.Some? || o.useOnlyCache) ==>
              OnCacheLookup(url, data, o, now, net) == TileBlob10.OnCacheLookup(url, data, o, now, net, true, codec)
  {
  }

  /** With the cache off, `_loadTile` loads the URL directly and writes
      nothing, where the Blob10 plug-in still runs its miss branch. */
  lemma CacheOffLoadsUrl(o: Options, s: Store, url: string, now: int, net: Fetch, codec: Codec)
    requires !o.useCache && !o.useOnlyCache
    ensures LoadTile(o, s, url, now, net) == (UrlSrc(url), None)
    ensures TileBlob10.Lookup(o, s, url, now, net, true, codec).fetched
  {
  }
}
