# leaflet-cache, modelled in Dafny

leaflet-cache is a set of Leaflet plug-ins that keep map tiles and marker
icons in a browser database so that a map keeps working offline. Each plug-in
does three things, and each is modelled here:

- **Cache-aside lookup.** When a tile or icon is shown, the plug-in looks the
  URL up in the 'cache' collection. Depending on whether a record is there,
  how old it is (`now > t + cacheMaxAge`) and the options `useCache`,
  `saveToCache`, `useOnlyCache` and `cacheMaxAge`, it does one of these:
  - serves the cached payload;
  - fetches the tile and writes it back;
  - falls back to the stale payload when the refresh fails;
  - rejects, or shows the empty image.
- **Seed queue construction.** `seed`, `seedLayers`, `seedLayersBlob` and
  `seedCalcLayers` list every tile of a box, or of several layers, over a
  range of zooms. The layer builders drop repeated URLs through an object
  used as a dictionary.
- **Sequential seed drain.** `_seedOneTile` and `_seedOneTileBlob` pop one
  URL at a time from the end of the queue. For each URL they probe the
  store, decide whether to fetch and save, and fire `seedprogress`; they fire
  `seedend` once the queue is empty.

How the model stands in for the parts of the code it does not run:

- The store is a `map<string, Record>`, and `_db.put` replaces the record
  under its URL.
- Each GET is an input outcome `Fetch`: a body on status 200, a rejection
  carrying an event on `error`/`abort`, or a rejection with no value on any
  other status.
- The clock is a parameter `now`.
- The browser test for Chrome is a boolean `chrome`. It chooses between
  storing blobs and storing base64 text.
- The base64 library is an opaque `Codec`, and either direction of it may fail.
- The canvas `toDataURL` is an opaque `render` function.
- Per-zoom tile rectangles are inputs (`bounds: int -> Rect`), and URL
  templating is an abstract `url: Tile -> string`.

Modules:

- `CacheCore` (common.dfy): records, the store and its write, the option sets
  and their defaults, network outcomes, the save documents, and how a lookup
  promise settles.
- `TileBlob10` (blob10.dfy), `TileBlob` (blob.dfy) and `IconBlob`
  (icon_blob.dfy): the promise-based lookups. Each is a pure decision
  function returning a `Decision`: how the promise settles, whether a
  request went out, and the record written. `IconBlob.BlobIcon` is the icon
  object whose `_createImg` updates the element and the store.
- `ImgDom` (img_dom.dfy): the image element as a class with `src`, `onload`
  and `onerror`, and what the browser does when the image finishes loading
  (`Finish`).
- `TileCache` (tile_cache.dfy) and `IconCache` (icon_cache.dfy): the
  DOM-driven plug-ins. They are classes whose methods assign the element's
  fields, each specified by a function on the element state (`WireImg`,
  `WireBlob`, `WireIcon`).
- `SeedQueue` (seed_queue.dfy): the builders as methods with nested loops.
  Each is proved against the specification functions `Zooms` and `Layers`.
  The `index` object is `Dedup`, whose keys come out in insertion order.
- `SeedDrain` (seed_drain.dfy): one drain step `Step` and a whole drain
  `Run` as functions. `Seeder` is a class holding the store, the event log,
  the requests and `remaining`; its `Drain` loop is proved equal to `Run`.
  The five drains are one `Drain` tag each:
  - Blob10 `_seedOneTile`;
  - Blob.js `_seedOneTile` as written;
  - Blob.js `_seedOneTile` with its handler guarded;
  - the image-based `_seedOneTile` of L.TileLayer.Cache.js;
  - L.TileLayer.Cache.js `_seedOneTileBlob`.

Where a description of the plug-ins and the code differ, the model follows
the code:

- `errors` in `seedprogress` is 0 or 1 for the one item just handled. It is
  not a running count. The `errors` that `seedstart` and `seedend` carry is
  the constant 0 the drain starts with, which nothing updates
  (L.TileLayer.Cache.Blob10.js:290,336).
- No drain has a cancellation flag.
- The drains read only `cacheMaxAge`, never `useCache`, `saveToCache` or
  `useOnlyCache`.
- The L.TileLayer.Cache.js drains skip every cached URL, however old it is.
- Not every drain goes on after a failure (see Findings).

## Model

| member | source | states |
|---|---|---|
| CacheCore.TileLayerDefaults | L.TileLayer.Cache.js:1-4 | the tile layer defaults: cache off, saving on, online, a maximum age of 86400000 ms |
| CacheCore.IconDefaults | L.Icon.Cache.Blob.js:1-5 | the icon defaults match the tile defaults except that the cache is on |
| CacheCore.Get | L.TileLayer.Cache.Blob10.js:53 | the store read returns a record exactly when the URL is stored, and then that record |
| CacheCore.Put | L.TileLayer.Cache.Blob10.js:159 | a put stores the record under its URL and leaves every other URL's record unchanged |
| CacheCore.Apply | L.TileLayer.Cache.Blob10.js:145 | a decided write is a put; no write leaves the store as it was |
| CacheCore.PutKeepsWellKeyed | L.TileLayer.Cache.Blob10.js:152-160 | a put keeps every record filed under its own URL |
| CacheCore.BlobDoc | L.TileLayer.Cache.Blob.js:105-112 | `_saveBlob` writes `{i: url, d: blob, t: now}` |
| CacheCore.Base64Doc | L.TileLayer.Cache.Blob10.js:137-150 | `_saveBase64` writes the base64 text at `now` exactly when the conversion succeeds, and nothing otherwise |
| CacheCore.FetchedDoc | L.TileLayer.Cache.Blob10.js:85-91 | the save chosen by browser: the blob in Chrome, base64 elsewhere, under the URL at `now` |
| CacheCore.DecodeStored | L.TileLayer.Cache.Blob10.js:105-109 | only stored text decodes to a blob, through the codec |
| CacheCore.ObjectUrl | L.Icon.Cache.Blob.js:32 | `createObjectURL` succeeds exactly on a blob |
| ImgDom.Img.constructor | L.Icon.Cache.js:10 | a new element has no source and no handlers |
| ImgDom.Picture | L.TileLayer.Cache.js:47-58 | a URL source loads exactly when the GET succeeds, a data URL loads, an object URL and the empty image always load |
| ImgDom.OnLoadWrite | L.TileLayer.Cache.js:207-229 | only `_saveTile` writes, only with a canvas, and then the rendering under its URL at `now` |
| ImgDom.Finish | L.TileLayer.Cache.js:48-52 | an element with no source is left alone; a load that succeeds keeps the element and writes what the save handler writes, for its URL at `now`; a failed load switches to the fallback payload when `onerror` holds one, which the save handler then saves when it is encoded text; with no fallback the element is left as it was and nothing is written |
| TileBlob10.LoadTileBlob | L.TileLayer.Cache.Blob10.js:51-56 | with the cache on, the stored record for the URL; with it off, a miss |
| TileBlob10.OnCacheLookup | L.TileLayer.Cache.Blob10.js:78-135 | a request goes out exactly for a stale record online or for an online miss; only a successful fetch with saving on writes, and it writes that URL at `now`; it rejects exactly on a miss with `useOnlyCache` or whose fetch fails, or on a hit served from the store (fresh, or offline) outside Chrome whose stored text does not decode; the promise always settles |
| TileBlob10.FreshHitServesCached | L.TileLayer.Cache.Blob10.js:80-111 | an age at most `cacheMaxAge` (equality included), or `useOnlyCache`, makes no request and no write; in Chrome it serves the stored `d`, elsewhere the decoded blob, or rejects when the text does not decode |
| TileBlob10.StaleRefresh | L.TileLayer.Cache.Blob10.js:84-95 | a stale refresh serves the new blob and saves it only with saving on; a failed fetch serves the stale `d` and writes nothing |
| TileBlob10.MissBranch | L.TileLayer.Cache.Blob10.js:112-131 | an offline miss rejects with no request; an online miss fetches, serves, and saves exactly when saving is on and the save can be made; a failed fetch rejects |
| TileBlob10.CacheOffIsMiss | L.TileLayer.Cache.Blob10.js:51-56 | with the cache off every lookup is the miss decision, and it fetches exactly when online |
| TileBlob10.LookupWritesOnlyItsUrl | L.TileLayer.Cache.Blob10.js:137-160 | a lookup changes the store at most under its own URL, with a record stamped `now`, and keeps every record filed under its own URL |
| TileBlob10.SavedBlobIsServed | L.TileLayer.Cache.Blob10.js:78-160 | a blob saved by a miss is served from the cache with no request by every lookup up to `cacheMaxAge` later, in either format if the codec round-trips |
| TileBlob.LoadTileBlob | L.TileLayer.Cache.Blob.js:36-41 | with the cache off the probe rejects; otherwise it carries the stored record |
| TileBlob.OnCacheLookup | L.TileLayer.Cache.Blob.js:63-104 | a request goes out for a stale record online, or for an online miss only with saving on; a write is the fetched blob; it rejects exactly on a miss that is offline, not saving or failed |
| TileBlob.LoadTile | L.TileLayer.Cache.Blob.js:11-35 | with the cache off the tile loads its URL and nothing is written; with it on, the tile shows an object URL exactly when the lookup resolves to a blob, and that blob; a rejection loads the URL; the write is the lookup's |
| TileBlob.FreshHitServesCached | L.TileLayer.Cache.Blob.js:77-81 | a fresh or offline hit serves `d` with no request |
| TileBlob.StaleRefresh | L.TileLayer.Cache.Blob.js:69-76 | a stale refresh serves the new blob, saved exactly when saving is on, or the stale `d` on failure |
| TileBlob.DiffersFromBlob10OnlyOnUnsavedMiss | L.TileLayer.Cache.Blob.js:91-100 | Blob.js and Blob10 decide alike except on an online miss without saving, where Blob.js rejects with no request and Blob10 fetches |
| TileBlob.CacheOffLoadsUrl | L.TileLayer.Cache.Blob.js:30-41 | with the cache off the tile loads its URL and nothing is written |
| IconBlob.LoadTileBlob | L.Icon.Cache.Blob.js:43-48 | with the cache off the probe rejects; otherwise it carries the stored record |
| IconBlob.OnCacheLookup | L.Icon.Cache.Blob.js:70-132 | a request goes out for a stale record online or an online miss with saving; a write is the fetched payload; it rejects exactly on a miss that is offline, not saving or failed; it stays pending exactly on a fresh base64 record that fails to decode |
| IconBlob.Lookup | L.Icon.Cache.Blob.js:26-27 | with the cache off the lookup rejects with no request and no write |
| IconBlob.ShownSrc | L.Icon.Cache.Blob.js:28-37 | the icon shows an object URL exactly when the promise resolves with a blob; otherwise it keeps the placeholder |
| IconBlob.BlobIcon.CreateImg | L.Icon.Cache.Blob.js:10-39 | the element shown is the placeholder, replaced by the object URL on resolve; the store takes the lookup's write |
| IconBlob.CacheOffKeepsPlaceholder | L.Icon.Cache.Blob.js:13-18 | with the cache off the icon keeps its placeholder, with no request and no write |
| IconBlob.StaleRefresh | L.Icon.Cache.Blob.js:73-90 | a stale refresh shows the new blob and saves it only with saving on; a failed fetch resolves the stale `d` |
| IconBlob.FreshHitServed | L.Icon.Cache.Blob.js:91-104 | a fresh hit serves `d` in Chrome, or its decoding elsewhere; a decode failure never settles and the placeholder stays |
| IconBlob.MissBranch | L.Icon.Cache.Blob.js:105-129 | an offline miss or an unsaved miss rejects with no request; with saving it fetches, saves and shows, or rejects |
| IconBlob.DiffersFromBlob10 | L.Icon.Cache.Blob.js:70-132 | the icon and Blob10 lookups agree except on an undecodable fresh record (icon pending, tile rejected) and an online unsaved miss (icon rejects, tile fetches) |
| IconBlob.StaleFallbackLostOffChrome | L.Icon.Cache.Blob.js:88-90 | off Chrome a failed refresh resolves base64 text, and the icon keeps its placeholder even though the stored copy decodes |
| IconBlob.OnCacheLookupDecoded | L.Icon.Cache.Blob.js:88-90 | the corrected lookup sends the same requests and writes as the original |
| IconBlob.DecodedStaleFallbackShown | L.Icon.Cache.Blob.js:88-90 | with the fallback decoded, a failed refresh shows the stored copy in both formats |
| TileCache.CacheEvent | L.TileLayer.Cache.js:35-38 | `tilecachehit` for a present record, `tilecachemiss` otherwise |
| TileCache.WireImg | L.TileLayer.Cache.js:32-84 | the tile loads its URL exactly on a stale online hit or an online miss; a fresh hit shows `dataUrl`; an offline miss shows the empty image; only a stale hit falls back to `dataUrl` on error; the save handler goes exactly on network loads with saving on |
| TileCache.WireBlob | L.TileLayer.Cache.js:87-187 | a GET goes out on a stale online hit or an online saving miss; only a miss writes; a refused request shows the empty image with no stale fallback; an unsaved online miss loads the URL |
| TileCache.WireBlobBound | L.TileLayer.Cache.js:105-121 | with the listener bound, the refresh keeps the same requests and images and writes only the fetched blob with saving on |
| TileCache.CacheLayer.LoadTile | L.TileLayer.Cache.js:10-31 | `tileloadstart` fires; the cache is consulted only with `useCache` and a canvas; otherwise the tile loads its URL and nothing else changes |
| TileCache.CacheLayer.OnCacheLookup | L.TileLayer.Cache.js:32-84 | the hit or miss event is logged and the tile is left as `WireImg` says |
| TileCache.CacheLayer.OnCacheLookupBlob | L.TileLayer.Cache.js:87-187 | the event, the tile, the store and the requests change as `WireBlob` says |
| TileCache.CacheLayer.SaveBlob | L.TileLayer.Cache.js:191-202 | `{i, dataUrl: blob, timestamp: now}` is put under the URL |
| TileCache.CacheLayer.SaveTile | L.TileLayer.Cache.js:207-229 | without a canvas nothing is written; with one the rendering is put under the URL at `now` |
| TileCache.CacheLayer.TileSettled | L.TileLayer.Cache.js:44-52 | the browser's load runs the attached handlers, as `Finish` says |
| TileCache.FreshHitShowsStored | L.TileLayer.Cache.js:53-60 | a fresh or offline hit shows `dataUrl`, writes nothing and is the same for every network outcome |
| TileCache.StaleHitImg | L.TileLayer.Cache.js:39-52 | a stale hit loads the URL and saves with saving on and a canvas; on failure it shows `dataUrl`, and the save handler still attached re-saves the stored image with a fresh stamp |
| TileCache.MissImg | L.TileLayer.Cache.js:61-82 | an offline miss shows the empty image; an online miss loads the URL and saves only with saving on, a canvas and a successful load |
| TileCache.StaleRefusalDiffers | L.TileLayer.Cache.js:117-120 | a refused stale refresh shows the empty image through the blob lookup but `dataUrl` through the image lookup (line 48) |
| TileCache.StaleRefreshNeverSaved | L.TileLayer.Cache.js:105-116 | a successful stale refresh through the blob lookup shows the new blob but never writes it, even with saving on |
| TileCache.BoundRefreshSaved | L.TileLayer.Cache.js:105-116 | with the listener bound, the refresh writes exactly with saving on, and the next lookup within `cacheMaxAge` serves that blob with no request |
| TileCache.SavedTileIsServed | L.TileLayer.Cache.js:207-229 | a rendering saved on a miss is shown from the store, until it is stale |
| IconCache.WireIcon | L.Icon.Cache.js:31-73 | the icon loads its URL exactly on a stale online hit or an online miss; a fresh hit shows `dataUrl`; an offline miss the empty image; only a stale hit falls back on error; only the save handler is ever attached |
| IconCache.IconLayer.CreateImg | L.Icon.Cache.js:9-23 | the element returned is the one passed in, or a new one; with `useCache` and a canvas it is wired as the stored record says; otherwise `el.src = src` |
| IconCache.IconLayer.OnCacheLookup | L.Icon.Cache.js:31-73 | the element is left as `WireIcon` says |
| IconCache.IconLayer.SaveTile | L.Icon.Cache.js:79-101 | nothing without a canvas; otherwise `{i: url, dataUrl, timestamp: now}` under the URL |
| IconCache.GateBypassesCache | L.Icon.Cache.js:12-21 | with the cache off or no canvas the icon shows its URL, and finishing its load writes nothing, whatever the store holds |
| IconCache.FreshHitShowsStored | L.Icon.Cache.js:48-53 | a fresh or offline hit shows `dataUrl` and writes nothing |
| IconCache.StaleHitLoadsUrl | L.Icon.Cache.js:34-47 | a stale hit loads the URL and saves only with saving on and a canvas; on error it shows `dataUrl` |
| IconCache.MissBranch | L.Icon.Cache.js:54-70 | an offline miss shows the empty image; online the URL, with the save handler exactly when saving |
| IconCache.AgreesWithTileLayer | L.Icon.Cache.js:31-73 | the icon and tile image lookups show the same source and write the same record on every input |
| SeedQueue.UrlsAt | L.TileLayer.Cache.Blob10.js:280 | the queue holds one URL per tile, each that tile's |
| SeedQueue.IndexIsDistinctKeys | L.TileLayer.Cache.Blob10.js:234-243 | the deduplicated queue has no repeats and holds exactly the URLs assigned |
| SeedQueue.IndexLength | L.TileLayer.Cache.Blob10.js:198-202 | the deduplicated queue is as long as the number of distinct URLs |
| SeedQueue.ZoomsLength | L.TileLayer.Cache.Blob10.js:264-283 | the plain queue is as long as the sum of the rectangle areas |
| SeedQueue.InZooms | L.TileLayer.Cache.Blob10.js:264-283 | a tile is queued exactly when `minZoom <= z < maxZoom` and it lies in that zoom's inclusive bounds |
| SeedQueue.InLayers | L.TileLayer.Cache.Blob10.js:214-237 | a tile is queued by some layer exactly when its zoom is in range and some layer's bounds hold it |
| SeedQueue.PushRow | L.TileLayer.Cache.Blob10.js:277-281 | the inner loop appends the row's URLs left to right |
| SeedQueue.PushRect | L.TileLayer.Cache.Blob10.js:276-282 | the two inner loops append the rectangle row by row |
| SeedQueue.Seed | L.TileLayer.Cache.Blob10.js:258-283 | `seed` returns nothing when `minZoom > maxZoom` or there is no map; otherwise every tile of zooms `minZoom` up to but excluding `maxZoom`, with no dedup (the same in L.TileLayer.Cache.Blob.js and L.TileLayer.Cache.js) |
| SeedQueue.IndexRow | L.TileLayer.Cache.Blob10.js:231-235 | the inner loop assigns the row's URLs into the index |
| SeedQueue.IndexRect | L.TileLayer.Cache.Blob10.js:230-236 | the two inner loops assign the rectangle's URLs into the index |
| SeedQueue.IndexZooms | L.TileLayer.Cache.Blob10.js:217-237 | the zoom loop assigns one layer's URLs into the index |
| SeedQueue.CopyKeys | L.TileLayer.Cache.Blob10.js:240-243 | the key loop copies the index's keys in order |
| SeedQueue.SeedLayersQueue | L.TileLayer.Cache.Blob10.js:206-243 | nothing when `minZoom > maxZoom + 1` or there is no map; otherwise every layer's URLs over the inclusive range, deduplicated in first-seen order (the same for `seedLayers` and `seedLayersBlob` of the other two tile plug-ins) |
| SeedQueue.SeedCalcLayers | L.TileLayer.Cache.Blob10.js:166-203 | `seedCalcLayers` returns the number of distinct URLs, or nothing under the same guards |
| SeedQueue.SeedCalcLayersAsWritten | L.TileLayer.Cache.js:236-274 | in L.TileLayer.Cache.js it returns only when a guard fails; past the guards it throws at line 272 |
| SeedDrain.Reported | L.TileLayer.Cache.js:420-428 | `remainingLength` is the count after the pop, or, where progress fires before the pop, one more |
| SeedDrain.Save | L.TileLayer.Cache.Blob10.js:313-318 | a drain's save is for the popped URL at `now` |
| SeedDrain.ItemWrite | L.TileLayer.Cache.Blob10.js:306-318 | an item writes only under its own URL |
| SeedDrain.ImgSeedIsTileLoad | L.TileLayer.Cache.js:430-441 | the image drain writes what a tile image with `_saveTile(url)` writes, and goes on exactly when the image loads |
| SeedDrain.RunShape | L.TileLayer.Cache.Blob10.js:297-341 | a drain leaves a prefix of the queue, ends with `seedend` when it finishes and never fires it when it stops, and makes at most one request per item popped |
| SeedDrain.RequestsQueued | L.TileLayer.Cache.Blob10.js:304-308 | only queued URLs are requested |
| SeedDrain.Seeder.Pop | L.TileLayer.Cache.Blob10.js:304-339 | one pop shortens `remaining`, and the log, requests and store stay where the drain function says |
| SeedDrain.Seeder.Loop | L.TileLayer.Cache.Blob10.js:297-339 | the pops go on until the queue is empty or the drain stops, and the log, requests and store stay where the drain function says |
| SeedDrain.Seeder.Drain | L.TileLayer.Cache.Blob10.js:297-341 | the whole drain leaves the store, log, requests, stop flag and `remaining` that the drain function gives, with `seedend` last when the queue emptied |
| SeedDrain.Seeder.Start | L.TileLayer.Cache.Blob10.js:285-293 | `seedstart` with the queue length, then the drain; a builder that returned nothing changes nothing |
| SeedDrain.Seeder.Seed | L.TileLayer.Cache.Blob10.js:258-294 | `seed` starts the drain of the plain queue and leaves the stop flag and `remaining` the drain gives, or changes nothing under its guards |
| SeedDrain.Seeder.SeedLayers | L.TileLayer.Cache.Blob10.js:206-254 | `seedLayers` (and `seedLayersBlob`) starts the drain of the deduplicated queue and leaves the stop flag and `remaining` the drain gives, or changes nothing under its guards |
| SeedDrain.ProgressCountdown | L.TileLayer.Cache.Blob10.js:320-337 | each item popped fires one `seedprogress` in pop order, with `remainingLength` counting down to 0 (to 1 when progress fires before the pop); a finished drain fires one event per item plus `seedend` |
| SeedDrain.PromiseDrainsFinish | L.TileLayer.Cache.Blob10.js:329-339 | the Blob10 drain goes on after every outcome and always reaches `seedend` with the queue empty |
| SeedDrain.RunFrame | L.TileLayer.Cache.Blob10.js:313-318 | a drain writes only records of queued URLs |
| SeedDrain.RunKeepsWellKeyed | L.TileLayer.Cache.Blob10.js:313-318 | a drain keeps every record filed under its own URL |
| SeedDrain.RequestsPerItem | L.TileLayer.Cache.Blob10.js:306-312 | with no repeats, an item reached is requested exactly on a miss or a stale record (on a miss only for L.TileLayer.Cache.js); items never reached are not requested |
| SeedDrain.RequestsReached | L.TileLayer.Cache.Blob10.js:306-312 | with no repeats, an item reached is requested exactly when it was due on the store before the drain |
| SeedDrain.RequestsUnreached | L.TileLayer.Cache.Blob10.js:304-308 | with no repeats, an item the drain never reached is not requested |
| SeedDrain.StorePerItem | L.TileLayer.Cache.Blob10.js:313-318 | with no repeats, each item reached ends with its own save, or its old record when nothing was saved; the others keep theirs |
| SeedDrain.ErrorsPerItem | L.TileLayer.Cache.Blob10.js:336 | `errors` is 1 exactly for a due item whose request failed, and 0 for a fresh skip or a success |
| SeedDrain.AllMissSeed | L.TileLayer.Cache.Blob10.js:297-341 | N distinct uncached URLs, all answered: N requests, `remainingLength` N-1 down to 0 with no errors, then `seedend` |
| SeedDrain.CacheDrainSkipsCached | L.TileLayer.Cache.js:430-441 | the L.TileLayer.Cache.js drains skip every cached URL, stale or not: no request, no write |
| SeedDrain.CacheDrainHaltsOnFailure | L.TileLayer.Cache.js:445-477 | a failed request stops the L.TileLayer.Cache.js drain after that item's progress, with nothing written and the rest never popped |
| SeedDrain.BlobSeedStallsOnBadStatus | L.TileLayer.Cache.Blob.js:273-283 | in Blob.js a bad status fires no progress and the drain never reaches `seedend`; guarded, it reports one error and finishes |
| SeedDrain.BlobSeedAgreesUnlessBadStatus | L.TileLayer.Cache.Blob.js:247-285 | away from bad statuses the Blob.js drain as written and guarded are the same drain |
| SeedDrain.GuardedIsBlob10WithBlobs | L.TileLayer.Cache.Blob.js:256-263 | where blobs are stored, the guarded Blob.js drain is the Blob10 drain, saving the blob whatever `saveToCache` says |
| SeedDrain.DrainIgnoresFlags | L.TileLayer.Cache.Blob.js:257 | no drain depends on `useCache`, `saveToCache` or `useOnlyCache`, only on `cacheMaxAge` |

## Left out

- Network and DOM: XHR plumbing, `crossOrigin`, `alt`, `_adjustTilePoint`
  and `tile._layer` are left out. The request is an input `Fetch` and the
  image is the `Img` class. `_tileOnLoad` and `_tileOnError` are tags on the
  element, not code.
- The Blob10 `createTile` display step (L.TileLayer.Cache.Blob10.js:12-48) is
  not modelled. Only the lookup it chains to is.
- Asynchrony: every database call and every request completes before the
  next step, in the order they were issued. The base64 save in the Blob10
  drain finishes within its step.
- The clock is frozen for one lookup and for one whole drain (`now`).
- Canvas drawing in `_saveTile` (its size, `drawImage`) is left out. Its
  effect is `render` of the loaded picture.
- The projection of the bounding boxes (`project`, `divideBy`, `_floor`) is
  left out. So are the tile sizes: `_getTileSize()` in most builders and 256
  in Blob10's `seedLayers`. Both are folded into the given rectangles.
- Blob10's `seedLayers` sets `_tileZoom` while building URLs. That is folded
  into the abstract `url` function, which already receives the zoom. The
  other builders leave `_tileZoom` alone, so the model assumes that every
  layer's URL template takes its zoom from the tile's `z` and not from
  `_tileZoom`.
- The `bbox`, `minZoom` and `maxZoom` fields of the seed events are not kept,
  and neither is the `errors: 0` that `seedstart` and `seedend` carry.
  `seedstart`, `seedprogress` and `seedend` carry the queue length, and
  `seedprogress` also carries `remainingLength` and `errors`.
- Keys of the JavaScript `index` object are taken in insertion order. That
  holds because a tile URL is never an array-index-like string.
- `_createTile` is not part of this model. The image drain of
  L.TileLayer.Cache.js takes the seed image to have no `onerror` handler, so
  an image that fails to load ends the drain.
- TileBlob10.Lookup, TileCache.ImgLookup, IconCache.IconLookup and
  IconCache.Created carry no contracts of their own. Their facts are the
  lemmas and methods about them.
- The classes `TileCache.CacheLayer` and `IconBlob.BlobIcon` follow the code
  as written. The corrected lookups of Findings rows 3 and 4 sit beside them
  as functions.

## Findings

| source | as written | input that shows it | evidently intended | confidence | as-written member | corrected member |
|---|---|---|---|---|---|---|
| L.TileLayer.Cache.Blob.js:280 | the seed rejection handler reads `err.exist` unguarded; a request that ends with a non-200 status rejects with no value, so the handler throws, no `seedprogress` fires and the drain stops for good | a queue of one uncached URL whose server answers 404 | count the item as an error and continue, as `(err && err.exist)` does at L.TileLayer.Cache.Blob10.js:336 | not executed | SeedDrain.BlobSeedStallsOnBadStatus | SeedDrain.PromiseDrainsFinish |
| L.TileLayer.Cache.js:272 | `seedCalcLayers` logs the undeclared `n` before its return, so every call that passes the guards throws a ReferenceError and never returns a count | any layer list with `minZoom <= maxZoom + 1` and a map | return the number of distinct tile URLs, as L.TileLayer.Cache.Blob10.js:202 does | not executed | SeedQueue.SeedCalcLayersAsWritten | SeedQueue.SeedCalcLayers |
| L.TileLayer.Cache.js:105-116 | the stale-refresh `load` listener is not bound to the layer, so `this.options` is read on the request object and throws after the new blob is shown; the refreshed tile is never saved | a stale record, `saveToCache` on, the server answers 200 | save the refreshed blob when `saveToCache` is on, as the bound miss listener at line 173 does | not executed | TileCache.StaleRefreshNeverSaved | TileCache.BoundRefreshSaved |
| L.Icon.Cache.Blob.js:88-90 | outside Chrome a failed refresh resolves the stored base64 text itself; `createObjectURL` throws on it and the icon keeps the placeholder, although the stored copy decodes | a stale base64 record that decodes, the server unreachable, a non-Chrome browser | decode the stale payload as the fresh branch at line 98 does, and show it | not executed | IconBlob.StaleFallbackLostOffChrome | IconBlob.DecodedStaleFallbackShown |
