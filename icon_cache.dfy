/** The DOM-driven marker icon plug-in (L.Icon.Cache.js). */
module IconCache {
  import opened CacheCore
  import opened ImgDom
  import TileCache

  /** The element the icon's `_onCacheLookup` leaves behind; unlike the tile
      layer it leaves `onload` alone except to attach the save handler. */
  function WireIcon(st: ImgState, url: string, data: Option<Record>, o: Options, now: int): (r: ImgState)
    ensures r.src.UrlSrc? <==> (if data.Some? then Refresh(data.value, o, now) else !o.useOnlyCache)
    ensures r.src.UrlSrc? ==> r.src.url == url
    ensures data.Some? && !Refresh(data.value, o, now) ==> r.src == DataSrc(data.value.data)
    ensures data.None? && o.useOnlyCache ==> r.src == EmptySrc
    ensures r.onerror != st.onerror ==> data.Some? && Refresh(data.value, o, now) && r.onerror == FallBackTo(data.value.data)
    ensures r.onload != st.onload ==> r.src.UrlSrc? && o.saveToCache && r.onload == SaveTileOnLoad(url)
    ensures r.src.UrlSrc? && o.saveToCache ==> r.onload == SaveTileOnLoad(url)
  {
    match data
    case Some(rec) =>
      if Refresh(rec, o, now) then
        ImgState(UrlSrc(url), if o.saveToCache then SaveTileOnLoad(url) else st.onload, FallBackTo(rec.data))
      else
        st.(src := DataSrc(rec.data))
    case None =>
      if o.useOnlyCache then st.(src := EmptySrc)
      else st.(onload := if o.saveToCache then SaveTileOnLoad(url) else st.onload, src := UrlSrc(url))
  }

  /** The element `_createImg` leaves behind: wired by the lookup when the
      cache is on and there is a canvas, otherwise pointed at its own URL. */
  function Created(st: ImgState, src: string, data: Option<Record>, o: Options, canvas: bool, now: int): ImgState
  {
    if o.useCache && canvas then WireIcon(st, src, data, o, now) else st.(src := UrlSrc(src))
  }

  /** The icon path end to end: wiring, then the browser's load. */
  function IconLookup(st: ImgState, url: string, data: Option<Record>, o: Options, now: int,
                      net: Fetch, canvas: bool, render: Data -> string): (ImgState, Option<Record>)
  {
    Finish(WireIcon(st, url, data, o, now), net, canvas, render, now)
  }

  /** The icon layer: options, canvas, canvas encoder and store. */
  class IconLayer {
    const options: Options
    const canvas: bool
    const render: Data -> string
    var store: Store

    constructor (options: Options, canvas: bool, render: Data -> string, store: Store)
      ensures this.options == options && this.canvas == canvas && this.render == render && this.store == store
    {
      this.options, this.canvas, this.render, this.store := options, canvas, render, store;
    }

    /** `_createImg`: the cache is consulted only with the cache on and a
        canvas; otherwise the image loads its URL directly. */
    method CreateImg(src: string, el: Img?, now: int) returns (img: Img)
      modifies el
      ensures el != null ==> img == el
      ensures el == null ==> fresh(img)
      ensures var st0 := old(if el != null then el.State() else ImgState(NoSrc, NoOnLoad, NoOnError));
              img.State() == Created(st0, src, Get(store, src), options, canvas, now)
    {
      if el != null {
        img := el;
      } else {
        img := new Img();
      }
      if options.useCache && canvas {
        OnCacheLookup(img, src, Get(store, src), now);
      } else {
        img.src := UrlSrc(src);
      }
    }

    /** `_onCacheLookup` of the icon plug-in. */
    method OnCacheLookup(tile: Img, url: string, data: Option<Record>, now: int)
      modifies tile
      ensures tile.State() == WireIcon(old(tile.State()), url, data, options, now)
    {
      if data.Some? {
        var rec := data.value;
        if now > rec.stamp + options.cacheMaxAge && !options.useOnlyCache {
          if options.saveToCache {
            tile.onload := SaveTileOnLoad(url);
          }
          tile.src := UrlSrc(url);
          tile.onerror := FallBackTo(rec.data);
        } else {
          tile.src := DataSrc(rec.data);
        }
      } else {
        if options.useOnlyCache {
          tile.src := EmptySrc;
        } else {
          if options.saveToCache {
            tile.onload := SaveTileOnLoad(url);
          }
          tile.src := UrlSrc(url);
        }
      }
    }

    /** The `_saveTile(url)` handler: nothing without a canvas, otherwise the
        canvas rendering `{i: url, dataUrl, timestamp: now}` under 'cache'. */
    method SaveTile(url: string, pic: Data, now: int)
      modifies this`store
      ensures store == Apply(old(store), OnLoadWrite(SaveTileOnLoad(url), pic, canvas, render, now))
      ensures !canvas ==> store == old(store)
      ensures canvas ==> store == Put(old(store), Record(url, Text(render(pic)), now))
    {
      if !canvas {
        return;
      }
      var dataUrl := render(pic);
      store := Put(store, Record(url, Text(dataUrl), now));
    }
  }

  /** With the cache off or no canvas the image loads its own URL and nothing
      is written, whatever the store holds. */
  lemma GateBypassesCache(st: ImgState, src: string, data: Option<Record>, o: Options, canvas: bool,
                          net: Fetch, render: Data -> string, now: int)
    requires !(o.useCache && canvas) && !st.onload.SaveTileOnLoad? && !st.onerror.FallBackTo?
    ensures var f := Finish(Created(st, src, data, o, canvas, now), net, canvas, render, now);
            f.0 == st.(src := UrlSrc(src)) && f.1.None?
  {
  }

  /** A fresh hit, or any hit offline, shows the stored payload with no
      request and no write. */
  lemma FreshHitShowsStored(st: ImgState, url: string, rec: Record, o: Options, now: int,
                            net: Fetch, canvas: bool, render: Data -> string)
    requires !Refresh(rec, o, now) && !st.onload.SaveTileOnLoad? && !st.onerror.FallBackTo?
    ensures var r := IconLookup(st, url, Some(rec), o, now, net, canvas, render);
            r.0.src == DataSrc(rec.data) && r.1.None?
  {
  }

  /** A stale hit online loads the URL, saving the rendering on load only with
      saving on; on error the stored payload is shown instead. */
  lemma StaleHitLoadsUrl(st: ImgState, url: string, rec: Record, o: Options, now: int,
                         net: Fetch, canvas: bool, render: Data -> string)
    requires Refresh(rec, o, now) && !st.onload.SaveTileOnLoad?
    ensures var r := IconLookup(st, url, Some(rec), o, now, net, canvas, render);
            (net.Fetched? ==> r.0.src == UrlSrc(url) &&
                              r.1 == (if o.saveToCache && canvas then Some(Record(url, Text(render(Bin(net.body))), now)) else None)) &&
            (!net.Fetched? ==> r.0.src == DataSrc(rec.data))
  {
  }

  /** A miss offline shows the empty image; online it loads the URL, with the
      save handler attached only when saving is on. */
  lemma MissBranch(st: ImgState, url: string, o: Options, now: int)
    ensures var r := WireIcon(st, url, None, o, now);
            (o.useOnlyCache ==> r == st.(src := EmptySrc)) &&
            (!o.useOnlyCache ==> r.src == UrlSrc(url) && (r.onload == SaveTileOnLoad(url) <==> o.saveToCache || st.onload == SaveTileOnLoad(url)))
  {
  }

  /** The icon and tile-layer image lookups show the same source and write the
      same record on every input; they differ only in the `onload` bookkeeping
      the tile layer installs. */
  lemma {:induction false} AgreesWithTileLayer(st: ImgState, url: string, data: Option<Record>, o: Options, now: int,
                                               net: Fetch, canvas: bool, render: Data -> string)
    requires !st.onload.SaveTileOnLoad?
    ensures var i := IconLookup(st, url, data, o, now, net, canvas, render);
            var t := TileCache.ImgLookup(st, url, data, o, now, net, canvas, render);
            i.0.src == t.0.src && i.0.onerror == t.0.onerror && i.1 == t.1
  {
    var wi := WireIcon(st, url, data, o, now);
    var wt := TileCache.WireImg(st, url, data, o, now);
    assert wi.src == wt.src && wi.onerror == wt.onerror;
    assert wi.onload.SaveTileOnLoad? <==> wt.onload.SaveTileOnLoad?;
    assert wi.onload.SaveTileOnLoad? ==> wi.onload == wt.onload;
  }
}
