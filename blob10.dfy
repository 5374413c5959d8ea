/** The cache-aside lookup of the tile layer plug-in that stores blobs in
    Chrome and base64 text elsewhere (L.TileLayer.Cache.Blob10.js). */
module TileBlob10 {
  import opened CacheCore

  /** `_loadTileBlob`: the stored record when the cache is on; with the cache
      off the promise resolves with null, so the lookup sees a miss. */
  function LoadTileBlob(o: Options, s: Store, url: string): (r: Option<Record>)
    ensures r.Some? <==> o.useCache && url in s
    ensures r.Some? ==> r.value == s[url]
  {
    if o.useCache then Get(s, url) else None
  }

  /** `_onCacheLookup`: the decision for one tile, given the record the store
      returned (`data`), the clock, the outcome of the GET it may send, the
      storage format (`chrome`) and the base64 codec. */
  function OnCacheLookup(url: string, data: Option<Record>, o: Options, now: int,
                         net: Fetch, chrome: bool, codec: Codec): (r: Decision)
    // a request goes out for a stale record when online, and for every online miss
    ensures r.fetched <==> (if data.Some? then Refresh(data.value, o, now) else !o.useOnlyCache)
    // only a successful fetch with saving on writes, and then under this URL at `now`
    ensures r.write.Some? ==> r.fetched && net.Fetched? && o.saveToCache
    ensures r.write.Some? ==> r.write == FetchedDoc(chrome, codec, url, net.body, now)
    // a rejection exactly on a miss that is offline or whose fetch fails, or on
    // a fresh base64 record that does not decode
    ensures r.settle.Rejected? <==>
              (data.None? && (o.useOnlyCache || !net.Fetched?)) ||
              (data.Some? && !Refresh(data.value, o, now) && !chrome && DecodeStored(codec, data.value.data).None?)
    ensures !r.settle.Unsettled?
  {
    match data
    case Some(rec) =>
      if Refresh(rec, o, now) then
        (match net
         case Fetched(blob) =>
           Decision(Resolved(Bin(blob), FromNetwork), true,
                    if o.saveToCache then FetchedDoc(chrome, codec, url, blob, now) else None)
         case _ => Decision(Resolved(rec.data, StaleFallback), true, None))
      else if chrome then
        Decision(Resolved(rec.data, FromCache), false, None)
      else
        (match DecodeStored(codec, rec.data)
         case Some(b) => Decision(Resolved(Bin(b), FromCache), false, None)
         case None => Decision(Rejected, false, None))
    case None =>
      if o.useOnlyCache then
        Decision(Rejected, false, None)
      else
        match net
        case Fetched(blob) =>
          Decision(Resolved(Bin(blob), FromNetwork), true,
                   if o.saveToCache then FetchedDoc(chrome, codec, url, blob, now) else None)
        case _ => Decision(Rejected, true, None)
  }

  /** Probe then decide, as `createTile` chains them. */
  function Lookup(o: Options, s: Store, url: string, now: int, net: Fetch, chrome: bool, codec: Codec): Decision
  {
    OnCacheLookup(url, LoadTileBlob(o, s, url), o, now, net, chrome, codec)
  }

  /** A present record is served from the cache, with no request, when its age
      is at most `cacheMaxAge` (equality included) or the layer is offline:
      as stored in Chrome, decoded from base64 elsewhere, and rejected when
      the decoding fails. */
  lemma FreshHitServesCached(url: string, rec: Record, o: Options, now: int, net: Fetch, chrome: bool, codec: Codec)
    requires now <= rec.stamp + o.cacheMaxAge || o.useOnlyCache
    ensures var r := OnCacheLookup(url, Some(rec), o, now, net, chrome, codec);
            (chrome ==> r == Decision(Resolved(rec.data, FromCache), false, None)) &&
            (!chrome && DecodeStored(codec, rec.data).Some? ==>
               r == Decision(Resolved(Bin(DecodeStored(codec, rec.data).value), FromCache), false, None)) &&
            (!chrome && DecodeStored(codec, rec.data).None? ==> r == Decision(Rejected, false, None))
  {
  }

  /** Stale refresh: the new blob is served and, only when saving is on,
      written; a failed fetch serves the stale payload and surfaces no error. */
  lemma StaleRefresh(url: string, rec: Record, o: Options, now: int, net: Fetch, chrome: bool, codec: Codec)
    requires now > rec.stamp + o.cacheMaxAge && !o.useOnlyCache
    ensures var r := OnCacheLookup(url, Some(rec), o, now, net, chrome, codec);
            r.fetched &&
            (net.Fetched? ==> r.settle == Resolved(Bin(net.body), FromNetwork) &&
                              r.write == (if o.saveToCache then FetchedDoc(chrome, codec, url, net.body, now) else None)) &&
            (!net.Fetched? ==> r.settle == Resolved(rec.data, StaleFallback) && r.write.None?)
  {
  }

  /** A miss offline rejects without a request; online it fetches, saves only
      when saving is on, and rejects when the fetch fails. */
  lemma MissBranch(url: string, o: Options, now: int, net: Fetch, chrome: bool, codec: Codec)
    ensures var r := OnCacheLookup(url, None, o, now, net, chrome, codec);
            (o.useOnlyCache ==> r == Decision(Rejected, false, None)) &&
            (!o.useOnlyCache && net.Fetched? ==>
               r.fetched && r.settle == Resolved(Bin(net.body), FromNetwork) &&
               (r.write.Some? <==> o.saveToCache && (chrome || codec.toBase64(net.body).Some?))) &&
            (!o.useOnlyCache && !net.Fetched? ==> r == Decision(Rejected, true, None))
  {
  }

  /** With the cache off every lookup takes the miss branch, whatever the
      store holds. */
  lemma CacheOffIsMiss(o: Options, s: Store, url: string, now: int, net: Fetch, chrome: bool, codec: Codec)
    requires !o.useCache
    ensures Lookup(o, s, url, now, net, chrome, codec) == OnCacheLookup(url, None, o, now, net, chrome, codec)
    ensures Lookup(o, s, url, now, net, chrome, codec).fetched <==> !o.useOnlyCache
  {
  }

  /** The store after a lookup differs from the one before at most under the
      looked-up URL, where the new record carries the current time. */
  lemma LookupWritesOnlyItsUrl(o: Options, s: Store, url: string, now: int, net: Fetch, chrome: bool, codec: Codec)
    ensures var s' := Apply(s, Lookup(o, s, url, now, net, chrome, codec).write);
            s'.Keys <= s.Keys + {url} &&
            (forall u :: u in s && u != url ==> s'[u] == s[u]) &&
            (url in s' && s' != s ==> s'[url].url == url && s'[url].stamp == now) &&
            (WellKeyed(s) ==> WellKeyed(s'))
  {
  }

  /** Write-back round trip: once a fetched blob is saved, a lookup no later
      than `cacheMaxAge` afterwards serves that same blob from the cache with
      no request, in either storage format provided the codec round-trips. */
  lemma {:induction false} SavedBlobIsServed(o: Options, s: Store, url: string, blob: Bytes, now: int, later: int,
                                             net: Fetch, chrome: bool, codec: Codec)
    requires o.useCache && o.saveToCache && !o.useOnlyCache
    requires url !in s
    requires now <= later <= now + o.cacheMaxAge
    requires !chrome ==> codec.toBase64(blob).Some? && codec.fromBase64(codec.toBase64(blob).value) == Some(blob)
    ensures var w := Lookup(o, s, url, now, Fetched(blob), chrome, codec).write;
            w.Some? &&
            Lookup(o, Apply(s, w), url, later, net, chrome, codec) == Decision(Resolved(Bin(blob), FromCache), false, None)
  {
    var w := Lookup(o, s, url, now, Fetched(blob), chrome, codec).write;
    assert w == FetchedDoc(chrome, codec, url, blob, now);
    var rec := w.value;
    assert LoadTileBlob(o, Apply(s, w), url) == Some(rec);
    assert !Refresh(rec, o, later);
  }
}
