/** The image element the DOM-driven plug-ins wire up: its source and its two
    event handlers, and what happens when the browser finishes loading it. */
module ImgDom {
  import opened CacheCore

  /** The `onload` handlers the plug-ins attach: none, Leaflet's tile-loaded
      bookkeeping, the `_saveTile(url)` closure, or an object-URL release. */
  datatype OnLoad = NoOnLoad | TileOnLoad | SaveTileOnLoad(url: string) | RevokeOnLoad

  /** The `onerror` handlers: none, Leaflet's tile error, or the closure that
      switches the image to the stored payload. */
  datatype OnError = NoOnError | TileOnError | FallBackTo(d: Data)

  datatype ImgState = ImgState(src: Src, onload: OnLoad, onerror: OnError)

  /** `L.Util.emptyImageUrl`, a one-pixel GIF. */
  const EMPTY_IMAGE: string := "data:image/gif;base64,R0lGODlhAQABAAD/ACwAAAAAAQABAAACADs="

  class Img {
    var src: Src
    var onload: OnLoad
    var onerror: OnError

    /** `document.createElement('img')`. */
    constructor ()
      ensures src == NoSrc && onload == NoOnLoad && onerror == NoOnError
    {
      src, onload, onerror := NoSrc, NoOnLoad, NoOnError;
    }

    function State(): ImgState
      reads this
    {
      ImgState(src, onload, onerror)
    }
  }

  /** The picture one load of `src` yields, if it loads: a URL loads when the
      network returns the body; stored text (a data URL), an object URL and
      the empty image load locally. */
  function Picture(src: Src, net: Fetch): (p: Option<Data>)
    requires !src.NoSrc?
    ensures src.UrlSrc? ==> (p.Some? <==> net.Fetched?) && (p.Some? ==> p.value == Bin(net.body))
    ensures src.DataSrc? ==> (p.Some? <==> src.d.Text?) && (p.Some? ==> p.value == src.d)
    ensures src.ObjectSrc? ==> p == Some(Bin(src.blob))
    ensures src.EmptySrc? ==> p == Some(Text(EMPTY_IMAGE))
  {
    match src
    case UrlSrc(_) => if net.Fetched? then Some(Bin(net.body)) else None
    case DataSrc(d) => if d.Text? then Some(d) else None
    case ObjectSrc(b) => Some(Bin(b))
    case EmptySrc => Some(Text(EMPTY_IMAGE))
  }

  /** The record an `onload` handler writes for a loaded picture: only
      `_saveTile` writes, and only with a canvas; it stores the canvas
      rendering of the picture (`toDataURL`, passed as `render`) at `now`. */
  function OnLoadWrite(h: OnLoad, pic: Data, canvas: bool, render: Data -> string, now: int): (w: Option<Record>)
    ensures w.Some? <==> h.SaveTileOnLoad? && canvas
    ensures w.Some? ==> w.value == Record(h.url, Text(render(pic)), now)
  {
    match h
    case SaveTileOnLoad(u) => if canvas then Some(Record(u, Text(render(pic)), now)) else None
    case _ => None
  }

  /** The browser finishing the image: the onload handler runs on a loaded
      picture and the onerror handler on a failure; a fallback source set by
      onerror is loaded in turn, with the same onload handler still attached.
      Returns the final element and the record written. */
  function Finish(st: ImgState, net: Fetch, canvas: bool, render: Data -> string, now: int): (r: (ImgState, Option<Record>))
    ensures r.0.onload == st.onload && r.0.onerror == st.onerror
    ensures r.0.src == st.src || (st.onerror.FallBackTo? && r.0.src == DataSrc(st.onerror.d))
    ensures st.src.NoSrc? ==> r == (st, None)
    ensures r.1.Some? ==> st.onload.SaveTileOnLoad? && canvas &&
                          r.1.value.url == st.onload.url && r.1.value.stamp == now
    // a picture that loads keeps its source and runs the onload handler on it
    ensures !st.src.NoSrc? && Picture(st.src, net).Some? ==>
              r == (st, OnLoadWrite(st.onload, Picture(st.src, net).value, canvas, render, now))
    // a failed load switches to the fallback payload, which loads when it is text
    ensures !st.src.NoSrc? && Picture(st.src, net).None? && st.onerror.FallBackTo? ==>
              r.0 == st.(src := DataSrc(st.onerror.d)) &&
              r.1 == (if st.onerror.d.Text? then OnLoadWrite(st.onload, st.onerror.d, canvas, render, now) else None)
    // a failed load with no fallback leaves the element as it was and writes nothing
    ensures !st.src.NoSrc? && Picture(st.src, net).None? && !st.onerror.FallBackTo? ==> r == (st, None)
  {
    if st.src.NoSrc? then (st, None)
    else
      match Picture(st.src, net)
      case Some(pic) => (st, OnLoadWrite(st.onload, pic, canvas, render, now))
      case None =>
        match st.onerror
        case FallBackTo(d) =>
          var st' := st.(src := DataSrc(d));
          (match Picture(st'.src, net)
           case Some(pic) => (st', OnLoadWrite(st.onload, pic, canvas, render, now))
           case None => (st', None))
        case _ => (st, None)
  }
}
