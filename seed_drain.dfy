/** The sequential seed drains: the queue is consumed by popping from its end,
    one lookup (and at most one request) per item, each item's work finishing
    before the next is popped. */
module SeedDrain {
  import opened CacheCore
  import opened ImgDom
  import SeedQueue

  /** What `fire` reports: `seedstart` and `seedend` carry the queue length;
      `seedprogress` also carries `remainingLength` and, where the drain
      reports it, `errors`. */
  datatype SeedEvent =
    | SeedStart(queueLength: nat)
    | SeedProgress(queueLength: nat, remainingLength: nat, errors: Option<nat>)
    | SeedEnd(queueLength: nat)

  /** The five drains: `_seedOneTile` of L.TileLayer.Cache.Blob10.js, that of
      L.TileLayer.Cache.Blob.js as written and with its rejection handler
      guarded, and `_seedOneTile` (through an image element) and
      `_seedOneTileBlob` (through a request) of L.TileLayer.Cache.js. */
  datatype Drain = Blob10Seed | BlobSeed | BlobSeedGuarded | CacheImgSeed | CacheBlobSeed

  /** What one drain sees besides the queue and the store: the layer options,
      the frozen clock, the network, the storage format, the codec, whether a
      canvas exists and what the canvas renders a picture to. */
  datatype Env = Env(options: Options, now: int, net: string -> Fetch, chrome: bool, codec: Codec,
                     canvas: bool, render: Data -> string)

  /** The outcome of one popped item: the record written, whether a request
      went out, the progress event fired, and whether the drain goes on. */
  datatype StepResult = StepResult(write: Option<Record>, fetched: bool, progress: Option<SeedEvent>, proceed: bool)

  /** A drain run: the final store, the events fired, the URLs requested in
      order, whether it stopped short, and the queue it left behind. */
  datatype Final = Final(store: Store, events: seq<SeedEvent>, requests: seq<string>, stalled: bool, left: seq<string>)

  predicate IsCacheDrain(v: Drain)
  {
    v == CacheImgSeed || v == CacheBlobSeed
  }

  /** Whether an item is requested: on a miss or a stale record for the
      promise drains, on a miss only for the L.TileLayer.Cache.js drains.
      No drain consults `useCache`, `saveToCache` or `useOnlyCache`. */
  predicate Due(v: Drain, data: Option<Record>, env: Env)
  {
    data.None? || (!IsCacheDrain(v) && Stale(data.value, env.options.cacheMaxAge, env.now))
  }

  /** Whether a request's outcome stops the drain: any failure for the
      L.TileLayer.Cache.js drains (no handler continues them), and a bad
      status for Blob.js as written (its rejection handler throws). */
  predicate Halts(v: Drain, f: Fetch)
  {
    (IsCacheDrain(v) && !f.Fetched?) || (v == BlobSeed && f.BadStatus?)
  }

  /** The `remainingLength` reported for an item popped with `left` entries
      behind it: L.TileLayer.Cache.js fires before the pop. */
  function Reported(v: Drain, left: nat): (n: nat)
    ensures n == left || (IsCacheDrain(v) && n == left + 1)
  {
    if IsCacheDrain(v) then left + 1 else left
  }

  /** The record a successful request leaves: Blob10 stores the blob or its
      base64 text by browser, Blob.js and `_seedOneTileBlob` store the blob,
      and the image drain of L.TileLayer.Cache.js stores, through
      `_saveTile`, the canvas rendering of the loaded picture. */
  function Save(v: Drain, url: string, blob: Bytes, env: Env): (w: Option<Record>)
    ensures w.Some? ==> w.value.url == url && w.value.stamp == env.now
  {
    match v
    case Blob10Seed => FetchedDoc(env.chrome, env.codec, url, blob, env.now)
    case CacheImgSeed => OnLoadWrite(SaveTileOnLoad(url), Bin(blob), env.canvas, env.render, env.now)
    case _ => Some(BlobDoc(url, blob, env.now))
  }

  /** The `errors` a drain reports for an item: none at all in
      L.TileLayer.Cache.js; otherwise 1 for a due item whose request failed
      and 0 for anything else. */
  function Errors(v: Drain, due: bool, f: Fetch): Option<nat>
  {
    if IsCacheDrain(v) then None else Some(if due && !f.Fetched? then 1 else 0)
  }

  /** The record an item writes: the save of a due item whose request
      succeeded, and nothing otherwise. */
  function ItemWrite(v: Drain, url: string, data: Option<Record>, env: Env): (w: Option<Record>)
    ensures w.Some? ==> w.value.url == url
  {
    if Due(v, data, env) && env.net(url).Fetched? then Save(v, url, env.net(url).body, env) else None
  }

  /** One popped item `url` with `left` entries behind it and `data` as the
      store's answer for it: the request when due, the save on success, one
      `seedprogress` (none when Blob.js's rejection handler throws), and
      whether a callback goes on to the next item. */
  function Step(v: Drain, url: string, data: Option<Record>, left: nat, qlen: nat, env: Env): StepResult
  {
    var due := Due(v, data, env);
    var f := env.net(url);
    StepResult(ItemWrite(v, url, data, env),
               due,
               if due && v == BlobSeed && f.BadStatus? then None
               else Some(SeedProgress(qlen, Reported(v, left), Errors(v, due, f))),
               !(due && Halts(v, f)))
  }

  /** The image drain's step is the image element of a tile with
      `onload = _saveTile(url)` and no `onerror`: it writes what that element
      writes when it finishes, and goes on exactly when the image loads. */
  lemma ImgSeedIsTileLoad(url: string, data: Option<Record>, left: nat, qlen: nat, env: Env)
    requires data.None?
    ensures var st := Step(CacheImgSeed, url, data, left, qlen, env);
            var tile := ImgState(UrlSrc(url), SaveTileOnLoad(url), NoOnError);
            st.write == Finish(tile, env.net(url), env.canvas, env.render, env.now).1 &&
            (st.proceed <==> Picture(tile.src, env.net(url)).Some?)
  {
  }

  /** Prefixes the events and requests of one step to the rest of a run. */
  function Then(evs: seq<SeedEvent>, reqs: seq<string>, f: Final): Final
  {
    f.(events := evs + f.events, requests := reqs + f.requests)
  }

  function Events(st: StepResult): seq<SeedEvent>
  {
    if st.progress.Some? then [st.progress.value] else []
  }

  function Requests(st: StepResult, url: string): seq<string>
  {
    if st.fetched then [url] else []
  }

  /** The drain of `rem` from store `s`, for a seed of `qlen` entries. */
  function Run(v: Drain, rem: seq<string>, s: Store, qlen: nat, env: Env): Final
    decreases |rem|
  {
    if |rem| == 0 then Final(s, [SeedEnd(qlen)], [], false, [])
    else
      var url := rem[|rem| - 1];
      var left := rem[..|rem| - 1];
      var st := Step(v, url, Get(s, url), |left|, qlen, env);
      if st.proceed then Then(Events(st), Requests(st, url), Run(v, left, Apply(s, st.write), qlen, env))
      else Final(Apply(s, st.write), Events(st), Requests(st, url), true, left)
  }

  /** A drain leaves a prefix of its queue: all of it popped and `seedend`
      fired last, or stopped on an item with `seedend` never fired; it makes
      at most one request per item popped. */
  lemma {:induction false} RunShape(v: Drain, rem: seq<string>, s: Store, qlen: nat, env: Env)
    ensures var f := Run(v, rem, s, qlen, env);
            f.left <= rem && (|rem| > 0 ==> |f.left| < |rem|) &&
            (!f.stalled ==> f.left == [] && |f.events| > 0 && f.events[|f.events| - 1] == SeedEnd(qlen)) &&
            (f.stalled ==> SeedEnd(qlen) !in f.events) &&
            |f.requests| <= |rem| - |f.left|
    decreases |rem|
  {
    if |rem| > 0 {
      var url := rem[|rem| - 1];
      var left := rem[..|rem| - 1];
      var st := Step(v, url, Get(s, url), |left|, qlen, env);
      if st.proceed {
        RunShape(v, left, Apply(s, st.write), qlen, env);
        var g := Run(v, left, Apply(s, st.write), qlen, env);
        assert g.left <= left;
      }
    }
  }

  /** Only queued URLs are requested. */
  lemma {:induction false} RequestsQueued(v: Drain, rem: seq<string>, s: Store, qlen: nat, env: Env)
    ensures forall u :: u in Run(v, rem, s, qlen, env).requests ==> u in rem
    decreases |rem|
  {
    if |rem| > 0 {
      var url := rem[|rem| - 1];
      var left := rem[..|rem| - 1];
      var st := Step(v, url, Get(s, url), |left|, qlen, env);
      RequestsQueued(v, left, Apply(s, st.write), qlen, env);
      assert forall u :: u in left ==> u in rem;
    }
  }

  /** One pop of a non-empty queue. */
  lemma RunStep(v: Drain, rem: seq<string>, s: Store, qlen: nat, env: Env)
    requires |rem| > 0
    ensures var url := rem[|rem| - 1];
            var left := rem[..|rem| - 1];
            var st := Step(v, url, Get(s, url), |left|, qlen, env);
            Run(v, rem, s, qlen, env) ==
              if st.proceed then Then(Events(st), Requests(st, url), Run(v, left, Apply(s, st.write), qlen, env))
              else Final(Apply(s, st.write), Events(st), Requests(st, url), true, left)
  {
  }

  /** Where a drain stands: stopped with what it did so far, or about to
      drain what is left. */
  function Sofar(v: Drain, evs: seq<SeedEvent>, reqs: seq<string>, stalled: bool, rem: seq<string>, s: Store,
                 qlen: nat, env: Env): Final
  {
    if stalled then Final(s, evs, reqs, true, rem) else Then(evs, reqs, Run(v, rem, s, qlen, env))
  }

  /** One pop keeps the drain where `Run` says it is. */
  lemma DrainStep(v: Drain, f: Final, evs: seq<SeedEvent>, reqs: seq<string>, rem: seq<string>, s: Store,
                  qlen: nat, env: Env)
    requires |rem| > 0 && f == Sofar(v, evs, reqs, false, rem, s, qlen, env)
    ensures var url := rem[|rem| - 1];
            var st := Step(v, url, Get(s, url), |rem| - 1, qlen, env);
            f == Sofar(v, evs + Events(st), reqs + Requests(st, url), !st.proceed, rem[..|rem| - 1],
                       Apply(s, st.write), qlen, env)
  {
    var url := rem[|rem| - 1];
    var st := Step(v, url, Get(s, url), |rem| - 1, qlen, env);
    RunStep(v, rem, s, qlen, env);
    if st.proceed {
      ThenThen(evs, reqs, Events(st), Requests(st, url), Run(v, rem[..|rem| - 1], Apply(s, st.write), qlen, env));
    }
  }

  /** A drain that stopped, or whose queue is empty, is over: `seedend` fires
      exactly when it did not stop. */
  lemma DrainDone(v: Drain, f: Final, evs: seq<SeedEvent>, reqs: seq<string>, stalled: bool, rem: seq<string>,
                  s: Store, qlen: nat, env: Env)
    requires stalled || |rem| == 0
    requires f == Sofar(v, evs, reqs, stalled, rem, s, qlen, env)
    ensures f.store == s && f.requests == reqs && f.stalled == stalled && f.left == rem
    ensures f.events == if stalled then evs else evs + [SeedEnd(qlen)]
  {
  }

  lemma ThenNil(f: Final)
    ensures Then([], [], f) == f
  {
    assert [] + f.events == f.events;
    assert [] + f.requests == f.requests;
  }

  lemma ThenThen(e1: seq<SeedEvent>, r1: seq<string>, e2: seq<SeedEvent>, r2: seq<string>, f: Final)
    ensures Then(e1, r1, Then(e2, r2, f)) == Then(e1 + e2, r1 + r2, f)
  {
    assert e1 + (e2 + f.events) == (e1 + e2) + f.events;
    assert r1 + (r2 + f.requests) == (r1 + r2) + f.requests;
  }

  /** The layer state a drain works on: the store, the event log, the URLs
      requested, the `remaining` array, and whether the drain stopped short. */
  class Seeder {
    const env: Env
    var store: Store
    var log: seq<SeedEvent>
    var requests: seq<string>
    var remaining: seq<string>
    var stalled: bool

    constructor (env: Env, store: Store)
      ensures this.env == env && this.store == store
      ensures log == [] && requests == [] && remaining == [] && !stalled
    {
      this.env, this.store := env, store;
      log, requests, remaining, stalled := [], [], [], false;
    }

    /** One call of `_seedOneTile` / `_seedOneTileBlob` on a non-empty queue:
        pop the last URL, look it up, do what its step decides, and record
        whether a callback goes on; the drain stays where `Run` says. */
    method Pop(v: Drain, qlen: nat, ghost target: Final, ghost log0: seq<SeedEvent>, ghost req0: seq<string>,
               ghost evs: seq<SeedEvent>, ghost reqs: seq<string>)
      returns (ghost evs': seq<SeedEvent>, ghost reqs': seq<string>)
      requires |remaining| > 0 && !stalled
      requires log == log0 + evs && requests == req0 + reqs
      requires target == Sofar(v, evs, reqs, false, remaining, store, qlen, env)
      modifies this
      ensures |remaining| < old(|remaining|)
      ensures log == log0 + evs' && requests == req0 + reqs'
      ensures target == Sofar(v, evs', reqs', stalled, remaining, store, qlen, env)
    {
      var rem, s := remaining, store;
      var url, left := rem[|rem| - 1], rem[..|rem| - 1];
      var st := Step(v, url, Get(s, url), |left|, qlen, env);
      DrainStep(v, target, evs, reqs, rem, s, qlen, env);
      remaining, store := left, Apply(s, st.write);
      if st.progress.Some? {
        log := log + [st.progress.value];
      }
      if st.fetched {
        requests := requests + [url];
      }
      evs', reqs' := evs + Events(st), reqs + Requests(st, url);
      assert log == log0 + evs' && requests == req0 + reqs';
      stalled := !st.proceed;
    }

    /** `_seedOneTile` / `_seedOneTileBlob` called until the queue is empty
        or an item's outcome leaves no callback to go on with; the drain
        stays where `Run` says. */
    method Loop(v: Drain, qlen: nat, ghost target: Final, ghost log0: seq<SeedEvent>, ghost req0: seq<string>,
                ghost evs: seq<SeedEvent>, ghost reqs: seq<string>)
      returns (ghost evs': seq<SeedEvent>, ghost reqs': seq<string>)
      requires log == log0 + evs && requests == req0 + reqs
      requires target == Sofar(v, evs, reqs, stalled, remaining, store, qlen, env)
      modifies this
      ensures stalled || |remaining| == 0
      ensures log == log0 + evs' && requests == req0 + reqs'
      ensures target == Sofar(v, evs', reqs', stalled, remaining, store, qlen, env)
    {
      evs', reqs' := evs, reqs;
      while |remaining| > 0 && !stalled
        invariant log == log0 + evs' && requests == req0 + reqs'
        invariant target == Sofar(v, evs', reqs', stalled, remaining, store, qlen, env)
        decreases |remaining|
      {
        evs', reqs' := Pop(v, qlen, target, log0, req0, evs', reqs');
      }
    }

    /** The whole drain: the pops, then `seedend` when the queue emptied. */
    method Drain(v: Drain, qlen: nat)
      modifies this
      ensures var f := Run(v, old(remaining), old(store), qlen, env);
              store == f.store && log == old(log) + f.events && requests == old(requests) + f.requests &&
              stalled == f.stalled && remaining == f.left
    {
      ghost var log0, req0 := log, requests;
      ghost var target := Run(v, remaining, store, qlen, env);
      stalled := false;
      ThenNil(target);
      assert log == log0 + [] && requests == req0 + [];
      var evs, reqs := Loop(v, qlen, target, log0, req0, [], []);
      DrainDone(v, target, evs, reqs, stalled, remaining, store, qlen, env);
      if !stalled {
        log := log + [SeedEnd(qlen)];
        assert log == log0 + (evs + [SeedEnd(qlen)]);
      }
    }

    /** Firing `seedstart` and draining a queue a builder returned; a builder
        that returned nothing starts no seed. */
    method Start(v: Drain, queue: Option<seq<string>>)
      modifies this
      ensures queue.None? ==> store == old(store) && log == old(log) && requests == old(requests) &&
                              remaining == old(remaining) && stalled == old(stalled)
      ensures queue.Some? ==>
                var f := Run(v, queue.value, old(store), |queue.value|, env);
                store == f.store && log == old(log) + [SeedStart(|queue.value|)] + f.events &&
                requests == old(requests) + f.requests && stalled == f.stalled && remaining == f.left
    {
      if queue.Some? {
        log := log + [SeedStart(|queue.value|)];
        remaining := queue.value;
        Drain(v, |queue.value|);
      }
    }

    /** `seed`: the bounding-box queue, drained by `v`. */
    method Seed(v: Drain, bounds: int -> SeedQueue.Rect, minZoom: int, maxZoom: int, hasMap: bool, url: SeedQueue.Tile -> string)
      modifies this
      ensures minZoom > maxZoom || !hasMap ==>
                store == old(store) && log == old(log) && requests == old(requests) &&
                remaining == old(remaining) && stalled == old(stalled)
      ensures !(minZoom > maxZoom || !hasMap) ==>
                var q := SeedQueue.Urls(url, SeedQueue.Zooms(bounds, minZoom, maxZoom));
                var f := Run(v, q, old(store), |q|, env);
                store == f.store && log == old(log) + [SeedStart(|q|)] + f.events && requests == old(requests) + f.requests &&
                stalled == f.stalled && remaining == f.left
    {
      var q := SeedQueue.Seed(bounds, minZoom, maxZoom, hasMap, url);
      Start(v, q);
    }

    /** `seedLayers` (and `seedLayersBlob`): the deduplicated queue of every
        layer, drained by `v`. */
    method SeedLayers(v: Drain, layers: seq<int -> SeedQueue.Rect>, minZoom: int, maxZoom: int, hasMap: bool,
                      url: SeedQueue.Tile -> string)
      modifies this
      ensures minZoom > maxZoom + 1 || !hasMap ==>
                store == old(store) && log == old(log) && requests == old(requests) &&
                remaining == old(remaining) && stalled == old(stalled)
      ensures !(minZoom > maxZoom + 1 || !hasMap) ==>
                var q := SeedQueue.Index(SeedQueue.Urls(url, SeedQueue.Layers(layers, minZoom, maxZoom + 1)));
                var f := Run(v, q, old(store), |q|, env);
                store == f.store && log == old(log) + [SeedStart(|q|)] + f.events && requests == old(requests) + f.requests &&
                stalled == f.stalled && remaining == f.left
    {
      var q := SeedQueue.SeedLayersQueue(layers, minZoom, maxZoom, hasMap, url);
      Start(v, q);
    }
  }

  /** Every item but the last is reported by one `seedprogress`, in pop
      order, whose `remainingLength` counts down to 0 (or, where the event
      fires before the pop, to 1); a finished drain ends with `seedend`. */
  lemma {:induction false} ProgressCountdown(v: Drain, rem: seq<string>, s: Store, qlen: nat, env: Env)
    ensures var f := Run(v, rem, s, qlen, env);
            |f.events| <= |rem| + 1 &&
            (!f.stalled ==> |f.events| == |rem| + 1) &&
            forall i :: 0 <= i < |f.events| && i < |rem| ==>
              f.events[i].SeedProgress? && f.events[i].queueLength == qlen &&
              f.events[i].remainingLength == Reported(v, |rem| - 1 - i)
    decreases |rem|
  {
    if |rem| > 0 {
      var url := rem[|rem| - 1];
      var left := rem[..|rem| - 1];
      var st := Step(v, url, Get(s, url), |left|, qlen, env);
      RunStep(v, rem, s, qlen, env);
      if st.proceed {
        var g := Run(v, left, Apply(s, st.write), qlen, env);
        ProgressCountdown(v, left, Apply(s, st.write), qlen, env);
        assert Events(st) == [SeedProgress(qlen, Reported(v, |left|), Errors(v, st.fetched, env.net(url)))];
        var e := Run(v, rem, s, qlen, env).events;
        assert e == Events(st) + g.events;
        forall i | 0 <= i < |e| && i < |rem|
          ensures e[i].SeedProgress? && e[i].queueLength == qlen && e[i].remainingLength == Reported(v, |rem| - 1 - i)
        {
          if i > 0 {
            assert e[i] == g.events[i - 1];
          }
        }
      }
    }
  }

  /** The Blob10 drain, and the Blob.js drain with its handler guarded, go
      on after every outcome: they always reach `seedend` with the queue
      empty. */
  lemma {:induction false} PromiseDrainsFinish(v: Drain, rem: seq<string>, s: Store, qlen: nat, env: Env)
    requires v == Blob10Seed || v == BlobSeedGuarded
    ensures var f := Run(v, rem, s, qlen, env);
            !f.stalled && f.left == [] && |f.events| == |rem| + 1
    decreases |rem|
  {
    if |rem| > 0 {
      var url := rem[|rem| - 1];
      var left := rem[..|rem| - 1];
      var st := Step(v, url, Get(s, url), |left|, qlen, env);
      PromiseDrainsFinish(v, left, Apply(s, st.write), qlen, env);
    }
  }

  /** A drain writes only records of URLs in its queue. */
  lemma {:induction false} RunFrame(v: Drain, rem: seq<string>, s: Store, qlen: nat, env: Env)
    ensures forall u :: u !in rem ==> Get(Run(v, rem, s, qlen, env).store, u) == Get(s, u)
    decreases |rem|
  {
    if |rem| > 0 {
      var url := rem[|rem| - 1];
      var left := rem[..|rem| - 1];
      var st := Step(v, url, Get(s, url), |left|, qlen, env);
      RunFrame(v, left, Apply(s, st.write), qlen, env);
      assert forall u :: u in left ==> u in rem;
    }
  }

  /** A drain keeps every record filed under its own URL. */
  lemma {:induction false} RunKeepsWellKeyed(v: Drain, rem: seq<string>, s: Store, qlen: nat, env: Env)
    requires WellKeyed(s)
    ensures WellKeyed(Run(v, rem, s, qlen, env).store)
    decreases |rem|
  {
    if |rem| > 0 {
      var url := rem[|rem| - 1];
      var left := rem[..|rem| - 1];
      var st := Step(v, url, Get(s, url), |left|, qlen, env);
      if st.write.Some? {
        PutKeepsWellKeyed(s, st.write.value);
      }
      if st.proceed {
        RunKeepsWellKeyed(v, left, Apply(s, st.write), qlen, env);
      }
    }
  }

  lemma PopDistinct(rem: seq<string>)
    requires |rem| > 0 && SeedQueue.NoDup(rem)
    ensures SeedQueue.NoDup(rem[..|rem| - 1]) && rem[|rem| - 1] !in rem[..|rem| - 1]
  {
  }

  /** A write for `url` leaves every other URL's record alone. */
  lemma ApplyFrame(s: Store, w: Option<Record>, url: string)
    requires w.Some? ==> w.value.url == url
    ensures forall u :: u != url ==> Get(Apply(s, w), u) == Get(s, u)
  {
  }

  /** With no URL queued twice, an item the drain reached is requested
      exactly when it was due on what the store held before the drain; an
      item never reached is not requested. */
  lemma RequestsPerItem(v: Drain, rem: seq<string>, s: Store, qlen: nat, env: Env)
    requires SeedQueue.NoDup(rem)
    ensures var f := Run(v, rem, s, qlen, env);
            |f.left| <= |rem| &&
            (forall k :: |f.left| <= k < |rem| ==> (rem[k] in f.requests <==> Due(v, Get(s, rem[k]), env))) &&
            (forall k :: 0 <= k < |f.left| ==> rem[k] !in f.requests)
  {
    RequestsReached(v, rem, s, qlen, env);
    RequestsUnreached(v, rem, s, qlen, env);
  }

  /** An item the drain reached is requested exactly when it was due. */
  lemma {:induction false} RequestsReached(v: Drain, rem: seq<string>, s: Store, qlen: nat, env: Env)
    requires SeedQueue.NoDup(rem)
    ensures var f := Run(v, rem, s, qlen, env);
            |f.left| <= |rem| &&
            forall k :: |f.left| <= k < |rem| ==> (rem[k] in f.requests <==> Due(v, Get(s, rem[k]), env))
    decreases |rem|
  {
    if |rem| > 0 {
      var url := rem[|rem| - 1];
      var left := rem[..|rem| - 1];
      var st := Step(v, url, Get(s, url), |left|, qlen, env);
      var s' := Apply(s, st.write);
      RunStep(v, rem, s, qlen, env);
      PopDistinct(rem);
      if st.proceed {
        ApplyFrame(s, st.write, url);
        RequestsReached(v, left, s', qlen, env);
        RequestsQueued(v, left, s', qlen, env);
        assert forall k :: 0 <= k < |left| ==> rem[k] == left[k] && left[k] != url;
      }
    }
  }

  /** An item the drain never reached is not requested. */
  lemma {:induction false} RequestsUnreached(v: Drain, rem: seq<string>, s: Store, qlen: nat, env: Env)
    requires SeedQueue.NoDup(rem)
    ensures var f := Run(v, rem, s, qlen, env);
            |f.left| <= |rem| && forall k :: 0 <= k < |f.left| ==> rem[k] !in f.requests
    decreases |rem|
  {
    if |rem| > 0 {
      var url := rem[|rem| - 1];
      var left := rem[..|rem| - 1];
      var st := Step(v, url, Get(s, url), |left|, qlen, env);
      RunStep(v, rem, s, qlen, env);
      PopDistinct(rem);
      assert forall k :: 0 <= k < |left| ==> rem[k] == left[k] && left[k] != url;
      if st.proceed {
        RequestsUnreached(v, left, Apply(s, st.write), qlen, env);
      }
    }
  }

  /** With no URL queued twice, an item the drain reached ends up with the
      record its own step wrote, or keeps its old record when it wrote none;
      an item never reached keeps its old record. */
  lemma {:induction false} StorePerItem(v: Drain, rem: seq<string>, s: Store, qlen: nat, env: Env)
    requires SeedQueue.NoDup(rem)
    ensures var f := Run(v, rem, s, qlen, env);
            |f.left| <= |rem| &&
            (forall k :: |f.left| <= k < |rem| ==>
               Get(f.store, rem[k]) == (var w := ItemWrite(v, rem[k], Get(s, rem[k]), env);
                                        if w.Some? then w else Get(s, rem[k]))) &&
            (forall k :: 0 <= k < |f.left| ==> Get(f.store, rem[k]) == Get(s, rem[k]))
    decreases |rem|
  {
    if |rem| > 0 {
      var url := rem[|rem| - 1];
      var left := rem[..|rem| - 1];
      var st := Step(v, url, Get(s, url), |left|, qlen, env);
      var s' := Apply(s, st.write);
      var f := Run(v, rem, s, qlen, env);
      RunStep(v, rem, s, qlen, env);
      PopDistinct(rem);
      ApplyFrame(s, st.write, url);
      assert Get(s', url) == if st.write.Some? then st.write else Get(s, url);
      if st.proceed {
        StorePerItem(v, left, s', qlen, env);
        RunFrame(v, left, s', qlen, env);
        assert f.store == Run(v, left, s', qlen, env).store && f.left == Run(v, left, s', qlen, env).left;
        forall k | 0 <= k < |left|
          ensures rem[k] == left[k] && rem[k] != url
        {
        }
      } else {
        assert f.store == s' && f.left == left;
        forall k | 0 <= k < |left|
          ensures rem[k] == left[k] && rem[k] != url
        {
        }
      }
    }
  }

  /** Where the promise drains report `errors`: 1 exactly for a due item
      whose request failed, 0 otherwise (a fresh skip or a request that
      succeeded); the count is per item and never accumulates. */
  lemma {:induction false} ErrorsPerItem(v: Drain, rem: seq<string>, s: Store, qlen: nat, env: Env)
    requires SeedQueue.NoDup(rem) && !IsCacheDrain(v)
    ensures var f := Run(v, rem, s, qlen, env);
            forall i :: 0 <= i < |f.events| && i < |rem| ==>
              f.events[i].SeedProgress? &&
              f.events[i].errors == Some(if Due(v, Get(s, rem[|rem| - 1 - i]), env) && !env.net(rem[|rem| - 1 - i]).Fetched?
                                         then 1 else 0)
    decreases |rem|
  {
    if |rem| > 0 {
      var url := rem[|rem| - 1];
      var left := rem[..|rem| - 1];
      var st := Step(v, url, Get(s, url), |left|, qlen, env);
      var s' := Apply(s, st.write);
      var e := Run(v, rem, s, qlen, env).events;
      RunStep(v, rem, s, qlen, env);
      PopDistinct(rem);
      ApplyFrame(s, st.write, url);
      if st.proceed {
        ErrorsPerItem(v, left, s', qlen, env);
        var g := Run(v, left, s', qlen, env);
        assert e == [st.progress.value] + g.events;
        forall i | 0 <= i < |e| && i < |rem|
          ensures e[i].SeedProgress? &&
                  e[i].errors == Some(if Due(v, Get(s, rem[|rem| - 1 - i]), env) && !env.net(rem[|rem| - 1 - i]).Fetched?
                                      then 1 else 0)
        {
          if i > 0 {
            var u := rem[|rem| - 1 - i];
            assert u == left[|left| - 1 - (i - 1)] && u != url;
            assert e[i] == g.events[i - 1];
          }
        }
      }
    }
  }

  /** N distinct URLs, none cached, a network that always answers: the
      Blob10 drain makes exactly N requests, reports `remainingLength`
      N-1 down to 0 with no error, and ends with `seedend`. */
  lemma {:induction false} AllMissSeed(rem: seq<string>, s: Store, qlen: nat, env: Env)
    requires SeedQueue.NoDup(rem)
    requires forall k :: 0 <= k < |rem| ==> rem[k] !in s && env.net(rem[k]).Fetched?
    ensures var f := Run(Blob10Seed, rem, s, qlen, env);
            !f.stalled && |f.requests| == |rem| && |f.events| == |rem| + 1 &&
            (forall i :: 0 <= i < |rem| ==> f.events[i] == SeedProgress(qlen, |rem| - 1 - i, Some(0))) &&
            f.events[|rem|] == SeedEnd(qlen)
    decreases |rem|
  {
    if |rem| > 0 {
      var url := rem[|rem| - 1];
      var left := rem[..|rem| - 1];
      var st := Step(Blob10Seed, url, Get(s, url), |left|, qlen, env);
      var s' := Apply(s, st.write);
      RunStep(Blob10Seed, rem, s, qlen, env);
      assert SeedQueue.NoDup(left);
      assert forall k :: 0 <= k < |left| ==> left[k] != url && left[k] !in s';
      AllMissSeed(left, s', qlen, env);
    }
  }

  /** The L.TileLayer.Cache.js drains skip every cached URL, stale or not:
      a queue of cached URLs is drained with no request and no write. */
  lemma {:induction false} CacheDrainSkipsCached(v: Drain, rem: seq<string>, s: Store, qlen: nat, env: Env)
    requires IsCacheDrain(v)
    requires forall k :: 0 <= k < |rem| ==> rem[k] in s
    ensures var f := Run(v, rem, s, qlen, env);
            !f.stalled && f.requests == [] && f.store == s
    decreases |rem|
  {
    if |rem| > 0 {
      var left := rem[..|rem| - 1];
      assert forall k :: 0 <= k < |left| ==> left[k] == rem[k];
      CacheDrainSkipsCached(v, left, s, qlen, env);
    }
  }

  /** A failed request stops the L.TileLayer.Cache.js drains for good: the
      item's progress was fired, nothing is written, and the rest of the
      queue is never popped. */
  lemma CacheDrainHaltsOnFailure(v: Drain, rem: seq<string>, s: Store, qlen: nat, env: Env)
    requires IsCacheDrain(v) && |rem| > 0
    requires rem[|rem| - 1] !in s && !env.net(rem[|rem| - 1]).Fetched?
    ensures Run(v, rem, s, qlen, env) ==
            Final(s, [SeedProgress(qlen, |rem|, None)], [rem[|rem| - 1]], true, rem[..|rem| - 1])
  {
  }

  /** As written, Blob.js stops on a bad status without a `seedprogress` and
      never reaches `seedend`. */
  lemma BlobSeedStallsOnBadStatus(u: string, s: Store, env: Env)
    requires u !in s && env.net(u) == BadStatus
    ensures Run(BlobSeed, [u], s, 1, env) == Final(s, [], [u], true, [])
    ensures SeedEnd(1) !in Run(BlobSeed, [u], s, 1, env).events
    ensures var g := Run(BlobSeedGuarded, [u], s, 1, env);
            !g.stalled && g.events == [SeedProgress(1, 0, Some(1)), SeedEnd(1)]
  {
  }

  /** Away from bad statuses the Blob.js drain as written and the guarded one
      are the same drain. */
  lemma {:induction false} BlobSeedAgreesUnlessBadStatus(rem: seq<string>, s: Store, qlen: nat, env: Env)
    requires forall k :: 0 <= k < |rem| ==> !env.net(rem[k]).BadStatus?
    ensures Run(BlobSeed, rem, s, qlen, env) == Run(BlobSeedGuarded, rem, s, qlen, env)
    decreases |rem|
  {
    if |rem| > 0 {
      var url := rem[|rem| - 1];
      var left := rem[..|rem| - 1];
      var st := Step(BlobSeed, url, Get(s, url), |left|, qlen, env);
      assert forall k :: 0 <= k < |left| ==> left[k] == rem[k];
      BlobSeedAgreesUnlessBadStatus(left, Apply(s, st.write), qlen, env);
    }
  }

  /** Where blobs are stored, the guarded Blob.js drain is the Blob10 drain. */
  lemma {:induction false} GuardedIsBlob10WithBlobs(rem: seq<string>, s: Store, qlen: nat, env: Env)
    requires env.chrome
    ensures Run(BlobSeedGuarded, rem, s, qlen, env) == Run(Blob10Seed, rem, s, qlen, env)
    decreases |rem|
  {
    if |rem| > 0 {
      var url := rem[|rem| - 1];
      var left := rem[..|rem| - 1];
      var st := Step(Blob10Seed, url, Get(s, url), |left|, qlen, env);
      GuardedIsBlob10WithBlobs(left, Apply(s, st.write), qlen, env);
    }
  }

  /** No drain reads `useCache`, `saveToCache` or `useOnlyCache`: only the
      maximum age matters. */
  lemma {:induction false} DrainIgnoresFlags(v: Drain, rem: seq<string>, s: Store, qlen: nat, env: Env, o: Options)
    requires o.cacheMaxAge == env.options.cacheMaxAge
    ensures Run(v, rem, s, qlen, env) == Run(v, rem, s, qlen, env.(options := o))
    decreases |rem|
  {
    if |rem| > 0 {
      var url := rem[|rem| - 1];
      var left := rem[..|rem| - 1];
      var st := Step(v, url, Get(s, url), |left|, qlen, env);
      DrainIgnoresFlags(v, left, Apply(s, st.write), qlen, env, o);
    }
  }
}
