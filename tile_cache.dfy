/** The DOM-driven tile layer plug-in (L.TileLayer.Cache.js): the lookups wire
    handlers and sources onto the tile image instead of returning a promise. */
module TileCache {
  import opened CacheCore
  import opened ImgDom

  datatype LayerEvent = TileLoadStart(url: string) | TileCacheHit(url: string) | TileCacheMiss(url: string)

  function CacheEvent(url: string, data: Option<Record>): (e: LayerEvent)
    ensures e.url == url
    ensures e.TileCacheHit? <==> data.Some?
  {
    if data.Some? then TileCacheHit(url) else TileCacheMiss(url)
  }

  /** The element `_onCacheLookup` leaves behind, from the element before. */
  function WireImg(st: ImgState, url: string, data: Option<Record>, o: Options, now: int): (r: ImgState)
    // the network is asked for the URL exactly on a stale online hit or an online miss
    ensures r.src.UrlSrc? <==> (if data.Some? then Refresh(data.value, o, now) else !o.useOnlyCache)
    ensures r.src.UrlSrc? ==> r.src.url == url
    // a fresh or offline hit shows the stored payload, an offline miss the empty image
    ensures data.Some? && !Refresh(data.value, o, now) ==> r.src == DataSrc(data.value.data)
    ensures data.None? && o.useOnlyCache ==> r.src == EmptySrc
    // only a stale hit falls back to the stored payload on error
    ensures r.onerror != st.onerror ==> data.Some? && Refresh(data.value, o, now) && r.onerror == FallBackTo(data.value.data)
    // the save handler is attached exactly to network loads with saving on
    ensures r.src.UrlSrc? && o.saveToCache ==> r.onload == SaveTileOnLoad(url)
    ensures r.onload.SaveTileOnLoad? && r.onload != st.onload ==> r.src.UrlSrc? && o.saveToCache && r.onload.url == url
  {
    match data
    case Some(rec) =>
      if Refresh(rec, o, now) then
        ImgState(UrlSrc(url), if o.saveToCache then SaveTileOnLoad(url) else st.onload, FallBackTo(rec.data))
      else
        st.(onload := TileOnLoad, src := DataSrc(rec.data))
    case None =>
      if o.useOnlyCache then st.(onload := TileOnLoad, src := EmptySrc)
      else st.(onload := if o.saveToCache then SaveTileOnLoad(url) else TileOnLoad, src := UrlSrc(url))
  }

  /** What `_onCacheLookupBlob` leaves behind once its request (if any) has
      finished: the element, the record it wrote and whether it sent a GET. */
  datatype BlobWiring = BlobWiring(st: ImgState, write: Option<Record>, fetched: bool)

  /** `_onCacheLookupBlob` as written. The stale-refresh listener is not bound
      to the layer, so on status 200 it shows the new blob and then fails on
      reading the options of the request object, before saving; on another
      status it installs the request's (missing) `_tileOnLoad`. A transport
      error has no listener at all and leaves the tile as it was. A cached
      payload that is not a blob makes `createObjectURL` throw. */
  function WireBlob(st: ImgState, url: string, data: Option<Record>, o: Options, now: int, net: Fetch): (r: BlobWiring)
    ensures r.fetched <==> (if data.Some? then Refresh(data.value, o, now) else !o.useOnlyCache && o.saveToCache)
    // only a miss writes, and then the fetched blob
    ensures r.write.Some? ==> data.None? && o.saveToCache && net.Fetched? && r.write.value == BlobDoc(url, net.body, now)
    // a refused request shows the empty image, with no stale fallback
    ensures r.fetched && net.BadStatus? ==> r.st.src == EmptySrc
    ensures r.fetched && net.Fetched? ==> r.st.src == ObjectSrc(net.body)
    ensures data.None? && !o.useOnlyCache && !o.saveToCache ==> r.st == st.(onload := TileOnLoad, src := UrlSrc(url))
    ensures r.st.onerror == st.onerror
  {
    match data
    case Some(rec) =>
      if Refresh(rec, o, now) then
        (match net
         case Fetched(b) => BlobWiring(st.(onload := RevokeOnLoad, src := ObjectSrc(b)), None, true)
         case BadStatus => BlobWiring(st.(onload := NoOnLoad, src := EmptySrc), None, true)
         case TransportError => BlobWiring(st, None, true))
      else
        (match ObjectUrl(rec.data)
         case Some(b) => BlobWiring(st.(onload := RevokeOnLoad, src := ObjectSrc(b)), None, false)
         case None => BlobWiring(st.(onload := RevokeOnLoad), None, false))
    case None =>
      if o.useOnlyCache then
        BlobWiring(st.(onload := TileOnLoad, src := EmptySrc), None, false)
      else if o.saveToCache then
        match net
        case Fetched(b) => BlobWiring(st.(onload := RevokeOnLoad, src := ObjectSrc(b)), Some(BlobDoc(url, b, now)), true)
        case BadStatus => BlobWiring(st.(onload := TileOnLoad, src := EmptySrc), None, true)
        case TransportError => BlobWiring(st, None, true)
      else
        BlobWiring(st.(onload := TileOnLoad, src := UrlSrc(url)), None, false)
  }

  /** `_onCacheLookupBlob` with the stale-refresh listener bound to the layer,
      as the miss branch's listener is. */
  function WireBlobBound(st: ImgState, url: string, data: Option<Record>, o: Options, now: int, net: Fetch): (r: BlobWiring)
    ensures r.fetched == WireBlob(st, url, data, o, now, net).fetched
    ensures r.st.src == WireBlob(st, url, data, o, now, net).st.src
    ensures r.write.Some? ==> o.saveToCache && net.Fetched? && r.write.value == BlobDoc(url, net.body, now)
  {
    match data
    case Some(rec) =>
      if Refresh(rec, o, now) then
        (match net
         case Fetched(b) =>
           BlobWiring(st.(onload := RevokeOnLoad, src := ObjectSrc(b)),
                      if o.saveToCache then Some(BlobDoc(url, b, now)) else None, true)
         case BadStatus => BlobWiring(st.(onload := TileOnLoad, src := EmptySrc), None, true)
         case TransportError => BlobWiring(st, None, true))
      else WireBlob(st, url, data, o, now, net)
    case None => WireBlob(st, url, data, o, now, net)
  }

  /** The layer: options, whether it has a canvas, the canvas encoder, the
      store, the events it fired and the URLs it sent GET requests for. */
  class CacheLayer {
    const options: Options
    const canvas: bool
    const render: Data -> string
    var store: Store
    var events: seq<LayerEvent>
    var requests: seq<string>

    constructor (options: Options, canvas: bool, render: Data -> string, store: Store)
      ensures this.options == options && this.canvas == canvas && this.render == render
      ensures this.store == store && events == [] && requests == []
    {
      this.options, this.canvas, this.render, this.store := options, canvas, render, store;
      events, requests := [], [];
    }

    /** `_loadTile`: the cache is consulted only with the cache on and a
        canvas (through `_onCacheLookupBlob`); otherwise the tile loads its URL
        the standard way. */
    method LoadTile(tile: Img, url: string, now: int, net: Fetch)
      modifies this, tile
      ensures var st0 := old(tile.State()).(onerror := TileOnError);
              var data := Get(old(store), url);
              var w := WireBlob(st0, url, data, options, now, net);
              if options.useCache && canvas then
                events == old(events) + [TileLoadStart(url), CacheEvent(url, data)] &&
                tile.State() == w.st && store == Apply(old(store), w.write) &&
                requests == old(requests) + (if w.fetched then [url] else [])
              else
                events == old(events) + [TileLoadStart(url)] &&
                tile.State() == st0.(onload := TileOnLoad, src := UrlSrc(url)) &&
                store == old(store) && requests == old(requests)
    {
      tile.onerror := TileOnError;
      events := events + [TileLoadStart(url)];
      if options.useCache && canvas {
        var data := Get(store, url);
        OnCacheLookupBlob(tile, url, data, now, net);
      } else {
        tile.onload := TileOnLoad;
        tile.src := UrlSrc(url);
      }
    }

    /** `_onCacheLookup`: fires the hit or miss event and wires the tile. */
    method OnCacheLookup(tile: Img, url: string, data: Option<Record>, now: int)
      modifies this`events, tile
      ensures events == old(events) + [CacheEvent(url, data)]
      ensures tile.State() == WireImg(old(tile.State()), url, data, options, now)
    {
      if data.Some? {
        events := events + [TileCacheHit(url)];
        var rec := data.value;
        if now > rec.stamp + options.cacheMaxAge && !options.useOnlyCache {
          if options.saveToCache {
            tile.onload := SaveTileOnLoad(url);
          }
          tile.src := UrlSrc(url);
          tile.onerror := FallBackTo(rec.data);
        } else {
          tile.onload := TileOnLoad;
          tile.src := DataSrc(rec.data);
        }
      } else {
        events := events + [TileCacheMiss(url)];
        if options.useOnlyCache {
          tile.onload := TileOnLoad;
          tile.src := EmptySrc;
        } else {
          if options.saveToCache {
            tile.onload := SaveTileOnLoad(url);
          } else {
            tile.onload := TileOnLoad;
          }
          tile.src := UrlSrc(url);
        }
      }
    }

    /** `_onCacheLookupBlob`, with its request answered by `net`. */
    method OnCacheLookupBlob(tile: Img, url: string, data: Option<Record>, now: int, net: Fetch)
      modifies this, tile
      ensures var w := WireBlob(old(tile.State()), url, data, options, now, net);
              events == old(events) + [CacheEvent(url, data)] &&
              tile.State() == w.st && store == Apply(old(store), w.write) &&
              requests == old(requests) + (if w.fetched then [url] else [])
    {
      if data.Some? {
        events := events + [TileCacheHit(url)];
        var rec := data.value;
        if now > rec.stamp + options.cacheMaxAge && !options.useOnlyCache {
          requests := requests + [url];
          match net {
            case Fetched(b) =>
              tile.onload := RevokeOnLoad;
              tile.src := ObjectSrc(b);
              // the listener's `this` is the request: reading its options throws here
            case BadStatus =>
              tile.onload := NoOnLoad;
              tile.src := EmptySrc;
            case TransportError =>
          }
        } else {
          tile.onload := RevokeOnLoad;
          match ObjectUrl(rec.data) {
            case Some(b) => tile.src := ObjectSrc(b);
            case None =>
          }
        }
      } else {
        events := events + [TileCacheMiss(url)];
        if options.useOnlyCache {
          tile.onload := TileOnLoad;
          tile.src := EmptySrc;
        } else if options.saveToCache {
          requests := requests + [url];
          match net {
            case Fetched(b) =>
              tile.onload := RevokeOnLoad;
              tile.src := ObjectSrc(b);
              SaveBlob(url, b, now);
            case BadStatus =>
              tile.onload := TileOnLoad;
              tile.src := EmptySrc;
            case TransportError =>
          }
        } else {
          tile.onload := TileOnLoad;
          tile.src := UrlSrc(url);
        }
      }
    }

    /** `_saveBlob`: the blob under its URL at the current time. */
    method SaveBlob(url: string, blob: Bytes, now: int)
      modifies this`store
      ensures store == Put(old(store), BlobDoc(url, blob, now))
    {
      store := Put(store, Record(url, Bin(blob), now));
    }

    /** The `_saveTile(url)` handler on a loaded picture: nothing without a
        canvas, otherwise the canvas rendering under the URL at `now`. */
    method SaveTile(url: string, pic: Data, now: int)
      modifies this`store
      ensures store == Apply(old(store), OnLoadWrite(SaveTileOnLoad(url), pic, canvas, render, now))
    {
      if !canvas {
        return;
      }
      var dataUrl := render(pic);
      store := Put(store, Record(url, Text(dataUrl), now));
    }

    /** The browser finishing the tile image and running the handlers the
        lookup attached. */
    method TileSettled(tile: Img, net: Fetch, now: int)
      modifies this`store, tile
      ensures var f := Finish(old(tile.State()), net, canvas, render, now);
              tile.State() == f.0 && store == Apply(old(store), f.1)
    {
      if tile.src.NoSrc? {
        return;
      }
      var pic := Picture(tile.src, net);
      if pic.None? {
        match tile.onerror {
          case FallBackTo(d) =>
            tile.src := DataSrc(d);
            pic := Picture(tile.src, net);
          case _ =>
        }
      }
      if pic.Some? {
        match tile.onload {
          case SaveTileOnLoad(u) => SaveTile(u, pic.value, now);
          case _ =>
        }
      }
    }
  }

  /** The image path end to end: wiring, then the browser's load. */
  function ImgLookup(st: ImgState, url: string, data: Option<Record>, o: Options, now: int,
                     net: Fetch, canvas: bool, render: Data -> string): (ImgState, Option<Record>)
  {
    Finish(WireImg(st, url, data, o, now), net, canvas, render, now)
  }

  /** A fresh hit, or any hit offline, shows the stored payload and writes
      nothing, whatever the network would have answered. */
  lemma FreshHitShowsStored(st: ImgState, url: string, rec: Record, o: Options, now: int,
                            net: Fetch, net': Fetch, canvas: bool, render: Data -> string)
    requires !Refresh(rec, o, now) && !st.onerror.FallBackTo?
    ensures var r := ImgLookup(st, url, Some(rec), o, now, net, canvas, render);
            r.0.src == DataSrc(rec.data) && r.1.None? &&
            r == ImgLookup(st, url, Some(rec), o, now, net', canvas, render)
  {
  }

  /** A stale hit online loads the URL. On success the rendering is saved only
      with saving on and a canvas. On failure the stored payload is shown, and
      because the save handler stays attached, the stored image is written
      again with the current time when saving is on. */
  lemma StaleHitImg(st: ImgState, url: string, rec: Record, o: Options, now: int,
                    net: Fetch, canvas: bool, render: Data -> string)
    requires Refresh(rec, o, now)
    requires !st.onload.SaveTileOnLoad?
    ensures var r := ImgLookup(st, url, Some(rec), o, now, net, canvas, render);
            (net.Fetched? ==> r.0.src == UrlSrc(url) &&
                              r.1 == (if o.saveToCache && canvas then Some(Record(url, Text(render(Bin(net.body))), now)) else None)) &&
            (!net.Fetched? ==> r.0.src == DataSrc(rec.data) &&
                               r.1 == (if o.saveToCache && canvas && rec.data.Text?
                                       then Some(Record(url, Text(render(rec.data)), now)) else None))
  {
  }

  /** A miss offline shows the empty image with no request; online it loads the
      URL and saves the rendering only with saving on and a canvas. */
  lemma MissImg(st: ImgState, url: string, o: Options, now: int, net: Fetch, canvas: bool, render: Data -> string)
    requires !st.onerror.FallBackTo?
    ensures var r := ImgLookup(st, url, None, o, now, net, canvas, render);
            (o.useOnlyCache ==> r.0.src == EmptySrc && r.1.None?) &&
            (!o.useOnlyCache ==>
               (r.0.src == UrlSrc(url) &&
                r.1 == (if o.saveToCache && canvas && net.Fetched? then Some(Record(url, Text(render(Bin(net.body))), now)) else None)))
  {
  }

  /** The two lookups of this plug-in part on a stale refresh the server
      refuses: the blob lookup shows the empty image, the image lookup falls
      back to the stored payload. */
  lemma StaleRefusalDiffers(st: ImgState, url: string, rec: Record, o: Options, now: int, canvas: bool, render: Data -> string)
    requires Refresh(rec, o, now) && rec.data.Text?
    ensures WireBlob(st, url, Some(rec), o, now, BadStatus).st.src == EmptySrc
    ensures ImgLookup(st, url, Some(rec), o, now, BadStatus, canvas, render).0.src == DataSrc(rec.data)
  {
  }

  /** As written, a successful stale refresh through the blob lookup never
      reaches the store, even with saving on. */
  lemma StaleRefreshNeverSaved(st: ImgState, url: string, rec: Record, o: Options, now: int, blob: Bytes)
    requires Refresh(rec, o, now) && o.saveToCache
    ensures WireBlob(st, url, Some(rec), o, now, Fetched(blob)).write.None?
    ensures WireBlob(st, url, Some(rec), o, now, Fetched(blob)).st.src == ObjectSrc(blob)
  {
  }

  /** With the listener bound, a successful stale refresh writes the new blob
      exactly when saving is on, and a later lookup within `cacheMaxAge`
      serves it from the cache with no request. */
  lemma {:induction false} BoundRefreshSaved(st: ImgState, url: string, rec: Record, o: Options, now: int, later: int,
                                             blob: Bytes, s: Store, net: Fetch)
    requires Refresh(rec, o, now) && now <= later <= now + o.cacheMaxAge
    ensures var w := WireBlobBound(st, url, Some(rec), o, now, Fetched(blob)).write;
            (w.Some? <==> o.saveToCache) &&
            (w.Some? ==> var s' := Apply(s, w);
                         url in s' &&
                         WireBlob(st, url, Get(s', url), o, later, net) ==
                           BlobWiring(st.(onload := RevokeOnLoad, src := ObjectSrc(blob)), None, false))
  {
    var w := WireBlobBound(st, url, Some(rec), o, now, Fetched(blob)).write;
    if w.Some? {
      var s' := Apply(s, w);
      assert s'[url] == BlobDoc(url, blob, now);
      assert !Refresh(s'[url], o, later);
    }
  }

  /** Image-path round trip: a miss saved through the canvas is, until it goes
      stale, shown from the store as that rendering, with no request. */
  lemma {:induction false} SavedTileIsServed(st: ImgState, st': ImgState, url: string, o: Options, now: int, later: int,
                                             body: Bytes, s: Store, net: Fetch, render: Data -> string)
    requires o.saveToCache && !o.useOnlyCache && now <= later <= now + o.cacheMaxAge
    requires !st.onerror.FallBackTo? && !st'.onerror.FallBackTo?
    ensures var w := ImgLookup(st, url, None, o, now, Fetched(body), true, render).1;
            w.Some? &&
            ImgLookup(st', url, Get(Apply(s, w), url), o, later, net, true, render).0.src ==
              DataSrc(Text(render(Bin(body))))
  {
    var w := ImgLookup(st, url, None, o, now, Fetched(body), true, render).1;
    MissImg(st, url, o, now, Fetched(body), true, render);
    var rec := Record(url, Text(render(Bin(body))), now);
    assert w == Some(rec);
    assert Get(Apply(s, w), url) == Some(rec);
    assert !Refresh(rec, o, later);
    FreshHitShowsStored(st', url, rec, o, later, net, net, true, render);
  }
}
