/** Building the list of tile URLs to seed. The projection of a bounding box
    to floored, inclusive tile bounds per zoom happens outside and is given as
    a function from zoom to rectangle; URL templating is an abstract `url`. */
module SeedQueue {
  import opened CacheCore

  datatype Tile = Tile(x: int, y: int, z: int)

  /** Inclusive tile bounds at one zoom, as `L.bounds` of the two floored
      corner points gives them. */
  datatype Rect = Rect(minX: int, minY: int, maxX: int, maxY: int)

  predicate InRect(r: Rect, x: int, y: int)
  {
    r.minX <= x <= r.maxX && r.minY <= y <= r.maxY
  }

  function Width(r: Rect): nat
  {
    if r.maxX < r.minX then 0 else r.maxX - r.minX + 1
  }

  function Height(r: Rect): nat
  {
    if r.maxY < r.minY then 0 else r.maxY - r.minY + 1
  }

  /** Row `y` from column `x0` through `x1`, left to right. */
  function Row(y: int, x0: int, x1: int, z: int): seq<Tile>
    decreases x1 - x0
  {
    if x1 < x0 then [] else Row(y, x0, x1 - 1, z) + [Tile(x1, y, z)]
  }

  /** Rows `r.minY` through `y1` of a rectangle, top to bottom. */
  function Rows(r: Rect, y1: int, z: int): seq<Tile>
    decreases y1 - r.minY
  {
    if y1 < r.minY then [] else Rows(r, y1 - 1, z) + Row(y1, r.minX, r.maxX, z)
  }

  /** Every rectangle for zooms `lo` up to but excluding `hi`, in zoom order. */
  function Zooms(bounds: int -> Rect, lo: int, hi: int): seq<Tile>
    decreases hi - lo
  {
    if hi <= lo then [] else Zooms(bounds, lo, hi - 1) + Rows(bounds(hi - 1), bounds(hi - 1).maxY, hi - 1)
  }

  /** Every layer's rectangles for zooms `lo` to `hi` exclusive, layer by layer. */
  function Layers(layers: seq<int -> Rect>, lo: int, hi: int): seq<Tile>
  {
    if |layers| == 0 then [] else Layers(layers[..|layers| - 1], lo, hi) + Zooms(layers[|layers| - 1], lo, hi)
  }

  /** The URL of every tile, in order. */
  function Urls(url: Tile -> string, ts: seq<Tile>): seq<string>
  {
    if |ts| == 0 then [] else Urls(url, ts[..|ts| - 1]) + [url(ts[|ts| - 1])]
  }

  /** One URL per tile, each that tile's. */
  lemma {:induction false} UrlsAt(url: Tile -> string, ts: seq<Tile>)
    ensures |Urls(url, ts)| == |ts|
    ensures forall i :: 0 <= i < |ts| ==> Urls(url, ts)[i] == url(ts[i])
  {
    if |ts| > 0 {
      UrlsAt(url, ts[..|ts| - 1]);
    }
  }

  lemma {:induction false} UrlsAppend(url: Tile -> string, a: seq<Tile>, b: seq<Tile>)
    ensures Urls(url, a + b) == Urls(url, a) + Urls(url, b)
  {
    if |b| == 0 {
      assert a + b == a;
    } else {
      var init := b[..|b| - 1];
      UrlsAppend(url, a, init);
      assert (a + b)[..|a + b| - 1] == a + init;
      assert (a + b)[|a + b| - 1] == b[|b| - 1];
      assert Urls(url, a + b) == Urls(url, a + init) + [url(b[|b| - 1])];
      assert Urls(url, b) == Urls(url, init) + [url(b[|b| - 1])];
    }
  }

  /** Adding a key to a JavaScript object: a new key goes last, an existing
      key keeps its place. */
  function AddKey(keys: seq<string>, u: string): seq<string>
  {
    if u in keys then keys else keys + [u]
  }

  /** The keys of an object holding `keys` after assigning the URLs `us` in
      order, in the order `for (key in index)` visits them. */
  function Dedup(keys: seq<string>, us: seq<string>): seq<string>
  {
    if |us| == 0 then keys else AddKey(Dedup(keys, us[..|us| - 1]), us[|us| - 1])
  }

  /** The keys of a fresh `index = {}` after assigning the URLs in order. */
  function Index(us: seq<string>): seq<string>
  {
    Dedup([], us)
  }

  function Distinct(s: seq<string>): set<string>
  {
    set u | u in s
  }

  predicate NoDup(s: seq<string>)
  {
    forall i, j :: 0 <= i < j < |s| ==> s[i] != s[j]
  }

  /** Assigning `a` then `b` leaves the keys assigning `a + b` leaves. */
  lemma {:induction false} DedupAppend(keys: seq<string>, a: seq<string>, b: seq<string>)
    ensures Dedup(keys, a + b) == Dedup(Dedup(keys, a), b)
  {
    if |b| == 0 {
      assert a + b == a;
    } else {
      var init := b[..|b| - 1];
      DedupAppend(keys, a, init);
      assert (a + b)[..|a + b| - 1] == a + init;
      assert (a + b)[|a + b| - 1] == b[|b| - 1];
    }
  }

  lemma DedupSnoc(keys: seq<string>, us: seq<string>, u: string)
    ensures Dedup(keys, us + [u]) == AddKey(Dedup(keys, us), u)
  {
    assert (us + [u])[..|us|] == us;
  }

  lemma {:induction false} DedupDistinct(keys: seq<string>, us: seq<string>)
    requires NoDup(keys)
    ensures NoDup(Dedup(keys, us))
    ensures forall u :: u in Dedup(keys, us) <==> u in keys || u in us
  {
    if |us| > 0 {
      var init := us[..|us| - 1];
      DedupDistinct(keys, init);
      assert us == init + [us[|us| - 1]];
    }
  }

  /** The queue holds every URL once and nothing else. */
  lemma IndexIsDistinctKeys(us: seq<string>)
    ensures NoDup(Index(us))
    ensures forall u :: u in Index(us) <==> u in us
  {
    DedupDistinct([], us);
  }

  lemma {:induction false} NoDupCard(s: seq<string>)
    requires NoDup(s)
    ensures |Distinct(s)| == |s|
  {
    if |s| > 0 {
      var init := s[..|s| - 1];
      assert NoDup(init);
      NoDupCard(init);
      assert Distinct(s) == Distinct(init) + {s[|s| - 1]};
      assert s[|s| - 1] !in init;
    }
  }

  /** The deduplicated queue holds exactly one entry per distinct URL. */
  lemma IndexLength(us: seq<string>)
    ensures |Index(us)| == |Distinct(us)|
  {
    IndexIsDistinctKeys(us);
    NoDupCard(Index(us));
    assert Distinct(Index(us)) == Distinct(us);
  }

  lemma {:induction false} RowLength(y: int, x0: int, x1: int, z: int)
    ensures |Row(y, x0, x1, z)| == if x1 < x0 then 0 else x1 - x0 + 1
    decreases x1 - x0
  {
    if x0 <= x1 {
      RowLength(y, x0, x1 - 1, z);
    }
  }

  lemma {:induction false} RowsLength(r: Rect, y1: int, z: int)
    requires y1 <= r.maxY
    ensures |Rows(r, y1, z)| == Width(r) * (if y1 < r.minY then 0 else y1 - r.minY + 1)
    decreases y1 - r.minY
  {
    if r.minY <= y1 {
      RowsLength(r, y1 - 1, z);
      RowLength(y1, r.minX, r.maxX, z);
      var n := y1 - r.minY;
      assert Width(r) * (n + 1) == Width(r) * n + Width(r);
    }
  }

  function AreaSum(bounds: int -> Rect, lo: int, hi: int): nat
    decreases hi - lo
  {
    if hi <= lo then 0 else AreaSum(bounds, lo, hi - 1) + Width(bounds(hi - 1)) * Height(bounds(hi - 1))
  }

  /** The undeduplicated queue is as long as the rectangles' areas together. */
  lemma {:induction false} ZoomsLength(bounds: int -> Rect, lo: int, hi: int)
    ensures |Zooms(bounds, lo, hi)| == AreaSum(bounds, lo, hi)
    decreases hi - lo
  {
    if lo < hi {
      ZoomsLength(bounds, lo, hi - 1);
      var r := bounds(hi - 1);
      RowsLength(r, r.maxY, hi - 1);
      assert Height(r) == if r.maxY < r.minY then 0 else r.maxY - r.minY + 1;
    }
  }

  lemma {:induction false} InRow(t: Tile, y: int, x0: int, x1: int, z: int)
    ensures t in Row(y, x0, x1, z) <==> t.y == y && t.z == z && x0 <= t.x <= x1
    decreases x1 - x0
  {
    if x0 <= x1 {
      InRow(t, y, x0, x1 - 1, z);
    }
  }

  lemma {:induction false} InRows(t: Tile, r: Rect, y1: int, z: int)
    ensures t in Rows(r, y1, z) <==> t.z == z && r.minX <= t.x <= r.maxX && r.minY <= t.y <= y1
    decreases y1 - r.minY
  {
    if r.minY <= y1 {
      InRows(t, r, y1 - 1, z);
      InRow(t, y1, r.minX, r.maxX, z);
    }
  }

  /** A tile is queued exactly when its zoom is in range and it lies inside
      that zoom's rectangle. */
  lemma {:induction false} InZooms(t: Tile, bounds: int -> Rect, lo: int, hi: int)
    ensures t in Zooms(bounds, lo, hi) <==> lo <= t.z < hi && InRect(bounds(t.z), t.x, t.y)
    decreases hi - lo
  {
    if lo < hi {
      InZooms(t, bounds, lo, hi - 1);
      InRows(t, bounds(hi - 1), bounds(hi - 1).maxY, hi - 1);
    }
  }

  /** Some layer's rectangle at the tile's zoom holds the tile. */
  predicate Covered(layers: seq<int -> Rect>, t: Tile)
  {
    exists a :: 0 <= a < |layers| && InRect(layers[a](t.z), t.x, t.y)
  }

  lemma CoveredSnoc(layers: seq<int -> Rect>, t: Tile)
    requires |layers| > 0
    ensures Covered(layers, t) <==>
              Covered(layers[..|layers| - 1], t) || InRect(layers[|layers| - 1](t.z), t.x, t.y)
  {
    var init := layers[..|layers| - 1];
    if Covered(init, t) {
      var a :| 0 <= a < |init| && InRect(init[a](t.z), t.x, t.y);
      assert layers[a] == init[a];
    }
    if Covered(layers, t) {
      var a :| 0 <= a < |layers| && InRect(layers[a](t.z), t.x, t.y);
      if a < |init| {
        assert init[a] == layers[a];
      }
    }
  }

  /** A tile is queued by some layer exactly when its zoom is in range and
      one of the layers' rectangles at that zoom holds it. */
  lemma {:induction false} InLayers(t: Tile, layers: seq<int -> Rect>, lo: int, hi: int)
    ensures t in Layers(layers, lo, hi) <==> lo <= t.z < hi && Covered(layers, t)
  {
    if |layers| > 0 {
      var init := layers[..|layers| - 1];
      InLayers(t, init, lo, hi);
      InZooms(t, layers[|layers| - 1], lo, hi);
      CoveredSnoc(layers, t);
    }
  }

  /** `queue.push(url)` for the tiles of row `y` from `x0` through `x1`. */
  method PushRow(url: Tile -> string, y: int, x0: int, x1: int, z: int, queue: seq<string>) returns (q: seq<string>)
    ensures q == queue + Urls(url, Row(y, x0, x1, z))
  {
    q := queue;
    var i := x0;
    while i <= x1
      invariant x0 <= i <= x1 + 1 || (i == x0 && x1 < x0)
      invariant q == queue + Urls(url, Row(y, x0, i - 1, z))
      decreases x1 - i
    {
      assert Urls(url, Row(y, x0, i, z)) == Urls(url, Row(y, x0, i - 1, z)) + [url(Tile(i, y, z))];
      q := q + [url(Tile(i, y, z))];
      i := i + 1;
    }
  }

  /** One rectangle, row by row, each row left to right, appending every URL
      to `queue` (the two inner loops of every seed builder). */
  method PushRect(url: Tile -> string, r: Rect, z: int, queue: seq<string>) returns (q: seq<string>)
    ensures q == queue + Urls(url, Rows(r, r.maxY, z))
  {
    q := queue;
    var j := r.minY;
    while j <= r.maxY
      invariant r.minY <= j <= r.maxY + 1 || (j == r.minY && r.maxY < r.minY)
      invariant q == queue + Urls(url, Rows(r, j - 1, z))
      decreases r.maxY - j
    {
      q := PushRow(url, j, r.minX, r.maxX, z, q);
      UrlsAppend(url, Rows(r, j - 1, z), Row(j, r.minX, r.maxX, z));
      assert Rows(r, j, z) == Rows(r, j - 1, z) + Row(j, r.minX, r.maxX, z);
      assert queue + Urls(url, Rows(r, j - 1, z)) + Urls(url, Row(j, r.minX, r.maxX, z)) ==
             queue + (Urls(url, Rows(r, j - 1, z)) + Urls(url, Row(j, r.minX, r.maxX, z)));
      j := j + 1;
    }
  }

  /** `seed`: nothing when the zoom range is reversed or there is no map;
      otherwise every tile of zooms `minZoom` up to but excluding `maxZoom`,
      zoom by zoom, with no deduplication. */
  method Seed(bounds: int -> Rect, minZoom: int, maxZoom: int, hasMap: bool, url: Tile -> string)
    returns (queue: Option<seq<string>>)
    ensures queue.None? <==> minZoom > maxZoom || !hasMap
    ensures queue.Some? ==> queue.value == Urls(url, Zooms(bounds, minZoom, maxZoom))
  {
    if minZoom > maxZoom || !hasMap {
      return None;
    }
    var q: seq<string> := [];
    var z := minZoom;
    while z < maxZoom
      invariant minZoom <= z <= maxZoom
      invariant q == Urls(url, Zooms(bounds, minZoom, z))
    {
      UrlsAppend(url, Zooms(bounds, minZoom, z), Rows(bounds(z), bounds(z).maxY, z));
      q := PushRect(url, bounds(z), z, q);
      z := z + 1;
    }
    return Some(q);
  }

  /** `index[url] = {}` for the tiles of row `y` from `x0` through `x1`. */
  method IndexRow(url: Tile -> string, y: int, x0: int, x1: int, z: int, keys: seq<string>) returns (k: seq<string>)
    ensures k == Dedup(keys, Urls(url, Row(y, x0, x1, z)))
  {
    k := keys;
    var i := x0;
    while i <= x1
      invariant x0 <= i <= x1 + 1 || (i == x0 && x1 < x0)
      invariant k == Dedup(keys, Urls(url, Row(y, x0, i - 1, z)))
      decreases x1 - i
    {
      UrlsAppend(url, Row(y, x0, i - 1, z), [Tile(i, y, z)]);
      DedupSnoc(keys, Urls(url, Row(y, x0, i - 1, z)), url(Tile(i, y, z)));
      k := AddKey(k, url(Tile(i, y, z)));
      i := i + 1;
    }
  }

  /** `index[url] = {}` for every URL of one rectangle, row by row. */
  method IndexRect(url: Tile -> string, r: Rect, z: int, keys: seq<string>) returns (k: seq<string>)
    ensures k == Dedup(keys, Urls(url, Rows(r, r.maxY, z)))
  {
    k := keys;
    var j := r.minY;
    while j <= r.maxY
      invariant r.minY <= j <= r.maxY + 1 || (j == r.minY && r.maxY < r.minY)
      invariant k == Dedup(keys, Urls(url, Rows(r, j - 1, z)))
      decreases r.maxY - j
    {
      k := IndexRow(url, j, r.minX, r.maxX, z, k);
      UrlsAppend(url, Rows(r, j - 1, z), Row(j, r.minX, r.maxX, z));
      DedupAppend(keys, Urls(url, Rows(r, j - 1, z)), Urls(url, Row(j, r.minX, r.maxX, z)));
      j := j + 1;
    }
  }

  /** One layer's zooms `lo` to `hi` exclusive, into the `index` object. */
  method IndexZooms(url: Tile -> string, bounds: int -> Rect, lo: int, hi: int, keys: seq<string>)
    returns (k: seq<string>)
    requires lo <= hi
    ensures k == Dedup(keys, Urls(url, Zooms(bounds, lo, hi)))
  {
    k := keys;
    var z := lo;
    while z < hi
      invariant lo <= z <= hi
      invariant k == Dedup(keys, Urls(url, Zooms(bounds, lo, z)))
    {
      var before := Urls(url, Zooms(bounds, lo, z));
      var rows := Urls(url, Rows(bounds(z), bounds(z).maxY, z));
      k := IndexRect(url, bounds(z), z, k);
      assert Zooms(bounds, lo, z + 1) == Zooms(bounds, lo, z) + Rows(bounds(z), bounds(z).maxY, z);
      UrlsAppend(url, Zooms(bounds, lo, z), Rows(bounds(z), bounds(z).maxY, z));
      DedupAppend(keys, before, rows);
      assert k == Dedup(keys, Urls(url, Zooms(bounds, lo, z + 1)));
      z := z + 1;
    }
  }

  /** `for (var key in index) queue.push(key)`. */
  method CopyKeys(keys: seq<string>) returns (queue: seq<string>)
    ensures queue == keys
  {
    queue := [];
    var n := 0;
    while n < |keys|
      invariant 0 <= n <= |keys|
      invariant queue == keys[..n]
    {
      queue := queue + [keys[n]];
      n := n + 1;
    }
  }

  lemma LayersStep(url: Tile -> string, layers: seq<int -> Rect>, a: int, lo: int, hi: int)
    requires 0 <= a < |layers|
    ensures Index(Urls(url, Layers(layers[..a + 1], lo, hi))) ==
            Dedup(Index(Urls(url, Layers(layers[..a], lo, hi))), Urls(url, Zooms(layers[a], lo, hi)))
  {
    var pre := layers[..a + 1];
    assert pre[..a] == layers[..a];
    assert pre[a] == layers[a];
    assert Layers(pre, lo, hi) == Layers(layers[..a], lo, hi) + Zooms(layers[a], lo, hi);
    UrlsAppend(url, Layers(layers[..a], lo, hi), Zooms(layers[a], lo, hi));
    DedupAppend([], Urls(url, Layers(layers[..a], lo, hi)), Urls(url, Zooms(layers[a], lo, hi)));
  }

  /** `seedLayers` up to the queue: `maxZoom` becomes exclusive only after
      adding one, so the range is inclusive; the URLs of every layer and zoom
      go through the `index` object, which drops repeats, and the queue is
      its keys in insertion order. */
  method SeedLayersQueue(layers: seq<int -> Rect>, minZoom: int, maxZoom: int, hasMap: bool, url: Tile -> string)
    returns (queue: Option<seq<string>>)
    ensures queue.None? <==> minZoom > maxZoom + 1 || !hasMap
    ensures queue.Some? ==> queue.value == Index(Urls(url, Layers(layers, minZoom, maxZoom + 1)))
  {
    var top := maxZoom + 1;
    if minZoom > top || !hasMap {
      return None;
    }
    var keys: seq<string> := [];
    var a := 0;
    while a < |layers|
      invariant 0 <= a <= |layers|
      invariant keys == Index(Urls(url, Layers(layers[..a], minZoom, top)))
    {
      keys := IndexZooms(url, layers[a], minZoom, top, keys);
      LayersStep(url, layers, a, minZoom, top);
      a := a + 1;
    }
    assert layers[..|layers|] == layers;
    var q := CopyKeys(keys);
    return Some(q);
  }

  /** `seedCalcLayers`: the number of distinct URLs `seedLayers` would queue. */
  method SeedCalcLayers(layers: seq<int -> Rect>, minZoom: int, maxZoom: int, hasMap: bool, url: Tile -> string)
    returns (n: Option<nat>)
    ensures n.None? <==> minZoom > maxZoom + 1 || !hasMap
    ensures n.Some? ==> n.value == |Distinct(Urls(url, Layers(layers, minZoom, maxZoom + 1)))|
  {
    var q := SeedLayersQueue(layers, minZoom, maxZoom, hasMap, url);
    match q {
      case None => return None;
      case Some(queue) =>
        IndexLength(Urls(url, Layers(layers, minZoom, maxZoom + 1)));
        return Some(|queue|);
    }
  }

  /** What `seedCalcLayers` of L.TileLayer.Cache.js ends in. */
  datatype CalcEnd = Returned(n: Option<nat>) | ReferenceError

  /** `seedCalcLayers` of L.TileLayer.Cache.js as written: past the guards it
      logs the undeclared `n` before returning, which throws. */
  method SeedCalcLayersAsWritten(layers: seq<int -> Rect>, minZoom: int, maxZoom: int, hasMap: bool, url: Tile -> string)
    returns (r: CalcEnd)
    ensures r.Returned? <==> minZoom > maxZoom + 1 || !hasMap
    ensures r.Returned? ==> r.n.None?
  {
    var q := SeedLayersQueue(layers, minZoom, maxZoom, hasMap, url);
    match q {
      case None => return Returned(None);
      case Some(_) => return ReferenceError;
    }
  }
}
