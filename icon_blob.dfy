/** The cache-aside lookup of the blob-storing marker icon plug-in
    (L.Icon.Cache.Blob.js). */
module IconBlob {
  import opened CacheCore
  import opened ImgDom
  import TileBlob10

  /** `_loadTileBlob`: with the cache off the promise is rejected outright. */
  function LoadTileBlob(o: Options, s: Store, url: string): (p: Probe)
    ensures p.Skipped? <==> !o.useCache
    ensures p.Probed? ==> p.data == Get(s, url)
  {
    if o.useCache then Probed(Get(s, url)) else Skipped
  }

  /** `_onCacheLookup` of the icon plug-in. */
  function OnCacheLookup(url: string, data: Option<Record>, o: Options, now: int,
                         net: Fetch, chrome: bool, codec: Codec): (r: Decision)
    ensures r.fetched <==> (if data.Some? then Refresh(data.value, o, now) else !o.useOnlyCache && o.saveToCache)
    ensures r.write.Some? ==> r.fetched && net.Fetched? && o.saveToCache &&
                              r.write == FetchedDoc(chrome, codec, url, net.body, now)
    ensures r.settle.Rejected? <==> data.None? && (o.useOnlyCache || !o.saveToCache || !net.Fetched?)
    // only a cached base64 payload that fails to decode leaves the promise pending
    ensures r.settle.Unsettled? <==>
              data.Some? && !Refresh(data.value, o, now) && !chrome && DecodeStored(codec, data.value.data).None?
  {
    match data
    case Some(rec) =>
      if Refresh(rec, o, now) then
        (match net
         case Fetched(blob) =>
           Decision(Resolved(Bin(blob), FromNetwork), true,
                    if o.saveToCache then FetchedDoc(chrome, codec, url, blob, now) else None)
         case _ => Decision(Resolved(rec.data, StaleFallback), true, None))
      else if chrome then
        Decision(Resolved(rec.data, FromCache), false, None)
      else
        (match DecodeStored(codec, rec.data)
         case Some(b) => Decision(Resolved(Bin(b), FromCache), false, None)
         case None => Decision(Unsettled, false, None))
    case None =>
      if o.useOnlyCache then
        Decision(Rejected, false, None)
      else if o.saveToCache then
        match net
        case Fetched(blob) => Decision(Resolved(Bin(blob), FromNetwork), true, FetchedDoc(chrome, codec, url, blob, now))
        case _ => Decision(Rejected, true, None)
      else
        Decision(Rejected, false, None)
  }

  /** Probe then decide; a skipped probe rejects without reaching the lookup. */
  function Lookup(o: Options, s: Store, url: string, now: int, net: Fetch, chrome: bool, codec: Codec): (r: Decision)
    ensures !o.useCache ==> r == Decision(Rejected, false, None)
  {
    match LoadTileBlob(o, s, url)
    case Skipped => Decision(Rejected, false, None)
    case Probed(data) => OnCacheLookup(url, data, o, now, net, chrome, codec)
  }

  /** The icon's final source: the object URL of a resolved blob; otherwise
      (a rejection, a pending promise, or a payload `createObjectURL` throws
      on) the placeholder empty image stays. */
  function ShownSrc(s: Settle): (src: Src)
    ensures src.ObjectSrc? || src.EmptySrc?
    ensures src.ObjectSrc? <==> s.Resolved? && s.d.Bin?
    ensures src.ObjectSrc? ==> src.blob == s.d.bytes
  {
    match s
    case Resolved(p, _) =>
      (match ObjectUrl(p)
       case Some(b) => ObjectSrc(b)
       case None => EmptySrc)
    case _ => EmptySrc
  }

  /** The icon layer: its options, the storage format chosen by browser, the
      codec, and the store it writes through. */
  class BlobIcon {
    const options: Options
    const chrome: bool
    const codec: Codec
    var store: Store

    constructor (options: Options, chrome: bool, codec: Codec, store: Store)
      ensures this.options == options && this.chrome == chrome && this.codec == codec && this.store == store
    {
      this.options, this.chrome, this.codec, this.store := options, chrome, codec, store;
    }

    /** `_createImg`: the placeholder first, then the looked-up blob if the
        lookup resolves with one; the lookup's write reaches the store. */
    method CreateImg(src: string, el: Img?, now: int, net: Fetch) returns (img: Img)
      modifies this, el
      ensures el != null ==> img == el
      ensures el == null ==> fresh(img)
      ensures var d := Lookup(options, old(store), src, now, net, chrome, codec);
              img.src == ShownSrc(d.settle) &&
              img.onload == (if d.settle.Resolved? then RevokeOnLoad else old(if el != null then el.onload else NoOnLoad)) &&
              img.onerror == old(if el != null then el.onerror else NoOnError) &&
              store == Apply(old(store), d.write)
    {
      if el != null {
        img := el;
      } else {
        img := new Img();
      }
      img.src := EmptySrc;
      var d := Lookup(options, store, src, now, net, chrome, codec);
      store := Apply(store, d.write);
      match d.settle {
        case Resolved(p, _) =>
          img.onload := RevokeOnLoad;
          match ObjectUrl(p) {
            case Some(b) => img.src := ObjectSrc(b);
            case None =>
          }
        case _ =>
      }
    }
  }

  /** With the cache off the lookup rejects without a request and the icon
      keeps its placeholder. */
  lemma CacheOffKeepsPlaceholder(o: Options, s: Store, url: string, now: int, net: Fetch, chrome: bool, codec: Codec)
    requires !o.useCache
    ensures var d := Lookup(o, s, url, now, net, chrome, codec);
            ShownSrc(d.settle) == EmptySrc && !d.fetched && d.write.None?
  {
  }

  /** A stale record, online: the new blob is shown and saved only when saving
      is on; when the fetch fails the stale payload is resolved. */
  lemma StaleRefresh(url: string, rec: Record, o: Options, now: int, net: Fetch, chrome: bool, codec: Codec)
    requires Refresh(rec, o, now)
    ensures var r := OnCacheLookup(url, Some(rec), o, now, net, chrome, codec);
            r.fetched &&
            (net.Fetched? ==> ShownSrc(r.settle) == ObjectSrc(net.body) &&
                              r.write == (if o.saveToCache then FetchedDoc(chrome, codec, url, net.body, now) else None)) &&
            (!net.Fetched? ==> r.settle == Resolved(rec.data, StaleFallback) && r.write.None?)
  {
  }

  /** A fresh record, or any record offline, is served with no request: the
      stored blob, or its decoded base64; a decode failure is only logged and
      the icon keeps its placeholder for good. */
  lemma FreshHitServed(url: string, rec: Record, o: Options, now: int, net: Fetch, chrome: bool, codec: Codec)
    requires !Refresh(rec, o, now)
    ensures var r := OnCacheLookup(url, Some(rec), o, now, net, chrome, codec);
            !r.fetched && r.write.None? &&
            (chrome ==> r.settle == Resolved(rec.data, FromCache)) &&
            (!chrome && DecodeStored(codec, rec.data).Some? ==>
               ShownSrc(r.settle) == ObjectSrc(DecodeStored(codec, rec.data).value)) &&
            (!chrome && DecodeStored(codec, rec.data).None? ==> r.settle == Unsettled && ShownSrc(r.settle) == EmptySrc)
  {
  }

  /** A miss offline, or online without saving, rejects with no request; online
      with saving it fetches, saves and shows the blob, or rejects. */
  lemma MissBranch(url: string, o: Options, now: int, net: Fetch, chrome: bool, codec: Codec)
    ensures var r := OnCacheLookup(url, None, o, now, net, chrome, codec);
            (o.useOnlyCache || !o.saveToCache ==> r == Decision(Rejected, false, None)) &&
            (!o.useOnlyCache && o.saveToCache && net.Fetched? ==>
               r == Decision(Resolved(Bin(net.body), FromNetwork), true, FetchedDoc(chrome, codec, url, net.body, now))) &&
            (!o.useOnlyCache && o.saveToCache && !net.Fetched? ==> r == Decision(Rejected, true, None))
  {
  }

  /** Where the icon and Blob10 tile lookups part: a cached base64 payload that
      does not decode leaves the icon pending but rejects the tile; an online
      miss without saving rejects the icon but fetches the tile. Everywhere
      else they decide alike. */
  lemma DiffersFromBlob10(url: string, data: Option<Record>, o: Options, now: int, net: Fetch, chrome: bool, codec: Codec)
    ensures var i := OnCacheLookup(url, data, o, now, net, chrome, codec);
            var t := TileBlob10.OnCacheLookup(url, data, o, now, net, chrome, codec);
            (i.settle.Unsettled? ==> t == Decision(Rejected, false, None)) &&
            (data.None? && !o.useOnlyCache && !o.saveToCache ==> i == Decision(Rejected, false, None) && t.fetched) &&
            (!i.settle.Unsettled? && (data.Some? || o.useOnlyCache || o.saveToCache) ==> i == t)
  {
  }

  /** As written, a failed refresh outside Chrome resolves the stale base64
      text itself; `createObjectURL` throws on it and the icon keeps its
      placeholder, even though the stored copy decodes. */
  lemma StaleFallbackLostOffChrome(url: string, rec: Record, o: Options, now: int, net: Fetch, codec: Codec)
    requires Refresh(rec, o, now) && !net.Fetched? && rec.data.Text?
    requires codec.fromBase64(rec.data.text).Some?
    ensures ShownSrc(OnCacheLookup(url, Some(rec), o, now, net, false, codec).settle) == EmptySrc
  {
  }

  /** The lookup with the stale fallback decoded the way the fresh branch
      decodes a cached payload. */
  function OnCacheLookupDecoded(url: string, data: Option<Record>, o: Options, now: int,
                                net: Fetch, chrome: bool, codec: Codec): (r: Decision)
    ensures r.fetched == OnCacheLookup(url, data, o, now, net, chrome, codec).fetched
    ensures r.write == OnCacheLookup(url, data, o, now, net, chrome, codec).write
  {
    var r := OnCacheLookup(url, data, o, now, net, chrome, codec);
    match r.settle
    case Resolved(Text(t), StaleFallback) =>
      if chrome then r
      else
        (match codec.fromBase64(t)
         case Some(b) => r.(settle := Resolved(Bin(b), StaleFallback))
         case None => r.(settle := Unsettled))
    case _ => r
  }

  /** With the fallback decoded, a failed refresh shows the stored copy in
      either storage format whenever it can be shown at all. */
  lemma DecodedStaleFallbackShown(url: string, rec: Record, o: Options, now: int, net: Fetch, chrome: bool, codec: Codec)
    requires Refresh(rec, o, now) && !net.Fetched?
    ensures var r := OnCacheLookupDecoded(url, Some(rec), o, now, net, chrome, codec);
            r.write.None? &&
            (rec.data.Bin? ==> ShownSrc(r.settle) == ObjectSrc(rec.data.bytes)) &&
            (rec.data.Text? && !chrome && codec.fromBase64(rec.data.text).Some? ==>
               ShownSrc(r.settle) == ObjectSrc(codec.fromBase64(rec.data.text).value))
  {
  }
}
