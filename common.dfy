/** Shared vocabulary of the tile and icon cache plug-ins: cache records, the
    key/value store they live in, the four cache options, the outcome of one
    network request, and the result of one cache lookup. */
module CacheCore {

  datatype Option<T> = None | Some(value: T)

  type Bytes = seq<bv8>

  /** What a record holds: a binary blob, or text (a base64 string or an
      image data URL). */
  datatype Data = Bin(bytes: Bytes) | Text(text: string)

  /** A stored document: `i` (the URL, which is also the store key), the
      payload (`d` or `dataUrl`) and the time it was written (`t` or
      `timestamp`), in milliseconds. */
  datatype Record = Record(url: string, data: Data, stamp: int)

  /** The 'cache' collection of the database: one record per URL. */
  type Store = map<string, Record>

  datatype Options = Options(useCache: bool, saveToCache: bool, useOnlyCache: bool, cacheMaxAge: int)

  /** One day in milliseconds, the default `cacheMaxAge` of every plug-in. */
  const DAY_MS: int := 24 * 3600 * 1000

  /** Defaults installed on the tile layer prototype: the cache is off. */
  function TileLayerDefaults(): (o: Options)
    ensures !o.useCache && o.saveToCache && !o.useOnlyCache
    ensures o.cacheMaxAge == 86400000
  {
    Options(false, true, false, DAY_MS)
  }

  /** Defaults installed on the icon prototype: the cache is on. */
  function IconDefaults(): (o: Options)
    ensures o.useCache && o.saveToCache && !o.useOnlyCache
    ensures o.cacheMaxAge == 86400000
    ensures o == TileLayerDefaults().(useCache := true)
  {
    Options(true, true, false, DAY_MS)
  }

  /** The outcome of one GET of a URL: the body on status 200, a rejection
      carrying the XHR event on `error`/`abort`, or a rejection with no value
      when the load completes with any other status. */
  datatype Fetch = Fetched(body: Bytes) | TransportError | BadStatus

  /** The blob/base64 conversion library, either direction of which may fail. */
  datatype Codec = Codec(toBase64: Bytes -> Option<string>, fromBase64: string -> Option<Bytes>)

  predicate Stale(r: Record, maxAge: int, now: int)
  {
    now > r.stamp + maxAge
  }

  /** The lookup refreshes a record from the network only when it is stale and
      the layer is allowed to go online. */
  predicate Refresh(r: Record, o: Options, now: int)
  {
    Stale(r, o.cacheMaxAge, now) && !o.useOnlyCache
  }

  function Get(s: Store, url: string): (r: Option<Record>)
    ensures r.Some? <==> url in s
    ensures r.Some? ==> r.value == s[url]
  {
    if url in s then Some(s[url]) else None
  }

  /** Every record sits under its own URL. */
  ghost predicate WellKeyed(s: Store)
  {
    forall u :: u in s ==> s[u].url == u
  }

  /** `_db.put('cache', doc)`: the record replaces whatever was stored under its
      URL; every other key keeps its record. */
  function Put(s: Store, r: Record): (s': Store)
    ensures s'.Keys == s.Keys + {r.url}
    ensures s'[r.url] == r
    ensures forall u :: u in s && u != r.url ==> s'[u] == s[u]
  {
    s[r.url := r]
  }

  /** Applies the write a lookup decided on, if any. */
  function Apply(s: Store, w: Option<Record>): (s': Store)
    ensures w.None? ==> s' == s
    ensures w.Some? ==> s' == Put(s, w.value)
  {
    match w
    case None => s
    case Some(r) => Put(s, r)
  }

  lemma PutKeepsWellKeyed(s: Store, r: Record)
    requires WellKeyed(s)
    ensures WellKeyed(Put(s, r))
  {
  }

  /** `_saveBlob`: the blob itself, stamped with the current time. */
  function BlobDoc(url: string, blob: Bytes, now: int): (r: Record)
    ensures r.url == url && r.stamp == now && r.data.Bin? && r.data.bytes == blob
  {
    Record(url, Bin(blob), now)
  }

  /** `_saveBase64`: the base64 text of the blob, or no write at all when the
      conversion fails (the failure is only logged). */
  function Base64Doc(codec: Codec, url: string, blob: Bytes, now: int): (w: Option<Record>)
    ensures w.Some? <==> codec.toBase64(blob).Some?
    ensures w.Some? ==> w.value == Record(url, Text(codec.toBase64(blob).value), now)
  {
    match codec.toBase64(blob)
    case None => None
    case Some(t) => Some(Record(url, Text(t), now))
  }

  /** The save chosen by browser: blobs where the backend takes blobs
      (`chrome`), base64 text elsewhere. */
  function FetchedDoc(chrome: bool, codec: Codec, url: string, blob: Bytes, now: int): (w: Option<Record>)
    ensures w.Some? ==> w.value.url == url && w.value.stamp == now
    ensures chrome ==> w == Some(BlobDoc(url, blob, now))
    ensures !chrome ==> w == Base64Doc(codec, url, blob, now)
  {
    if chrome then Some(BlobDoc(url, blob, now)) else Base64Doc(codec, url, blob, now)
  }

  /** `blobUtil.base64StringToBlob(data.d)`: only text can be decoded. */
  function DecodeStored(codec: Codec, d: Data): (b: Option<Bytes>)
    ensures d.Bin? ==> b.None?
    ensures d.Text? ==> b == codec.fromBase64(d.text)
  {
    match d
    case Bin(_) => None
    case Text(t) => codec.fromBase64(t)
  }

  /** Where a resolved payload came from. */
  datatype Origin = FromCache | FromNetwork | StaleFallback

  /** How the lookup promise ends: resolved with a payload, rejected, or
      never settled. */
  datatype Settle = Resolved(d: Data, origin: Origin) | Rejected | Unsettled

  /** One lookup: how it settles, whether it sent a network request, and the
      record it writes (if any). */
  datatype Decision = Decision(settle: Settle, fetched: bool, write: Option<Record>)

  /** What `_loadTileBlob` hands on: a rejected promise, or what the store
      returned for the URL (`None` for a miss). */
  datatype Probe = Skipped | Probed(data: Option<Record>)

  /** The source an image element ends up with: nothing yet, a URL loaded
      over the network, an object URL of a blob, a stored payload used as the
      source directly, or the empty placeholder image. */
  datatype Src = NoSrc | UrlSrc(url: string) | ObjectSrc(blob: Bytes) | DataSrc(d: Data) | EmptySrc

  /** `URL.createObjectURL`: succeeds on a blob and throws on anything else. */
  function ObjectUrl(d: Data): (b: Option<Bytes>)
    ensures b.Some? <==> d.Bin?
    ensures d.Bin? ==> b.value == d.bytes
  {
    match d
    case Bin(bytes) => Some(bytes)
    case Text(_) => None
  }
}
