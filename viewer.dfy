/** The view state of the reader as a value, and one function per operation
    of the reader giving the state after that operation. The class in
    module Reader is proved to follow these functions step by step. */
module Viewer {
  import opened Wrappers
  import opened Layout

  /** What the operations need from the outside world: the rasteriser's
      image size for a page index at a zoom factor, and the canvas width
      the toolkit reports. */
  datatype Env = Env(render: (nat, real) -> Extent, canvasWidth: int)

  /** The record kept between mouse events. */
  datatype Drag = Drag(x: int, y: int, dragging: bool)

  /** The page image on the canvas, anchored north-west at (x, 0). */
  datatype Image = Image(x: int, extent: Extent)

  /** A scroll the reader asked the canvas for, in units. */
  datatype Scroll = XUnits(units: int) | YUnits(units: int)

  /** The whole view state. `pageEntry`, `totalLabel` and `zoomEntry` are
      the values last written by the reader into the page entry, the
      "/N" label and the zoom entry. */
  datatype View = View(
    loaded: bool,
    pageCount: nat,
    totalLabel: nat,
    currentPage: nat,
    pageEntry: Option<nat>,
    zoom: real,
    zoomEntry: int,
    canvasZoom: real,
    justification: Justification,
    drag: Drag,
    image: Option<Image>,
    region: Option<Region>,
    lastScroll: Option<Scroll>)

  /** One press of a zoom button changes the zoom factor by five points. */
  const ZoomStep: real := 0.05

  /** The state right after start-up, canvas zoom at 50%. */
  function Initial(): (v: View)
    ensures Valid(v) && !v.loaded && v.pageCount == 0 && v.currentPage == 0
    ensures v.zoom == 1.0 && v.canvasZoom == 0.5 && v.justification == Center
    ensures v.drag == Drag(0, 0, false) && v.zoomEntry == 100 && v.totalLabel == 0
    ensures v.pageEntry.None? && v.image.None? && v.region.None? && v.lastScroll.None?
  {
    View(false, 0, 0, 0, None, 1.0, 100, 0.5, Center, Drag(0, 0, false), None, None, None)
  }

  /** The invariant every operation keeps. */
  predicate Valid(v: View) {
    && v.zoom > 0.0
    && 0.2 <= v.canvasZoom <= 0.8
    && (!v.loaded ==> v.pageCount == 0)
    && v.totalLabel == v.pageCount
    && (v.currentPage < v.pageCount || v.currentPage == 0)
    && (v.pageEntry.Some? ==> v.pageEntry.value == v.currentPage + 1)
    && (v.image.Some? ==> v.currentPage < v.pageCount && v.image.value.x >= 0)
  }

  /** The image on the canvas, if any, is the current page rendered at the
      current zoom and placed for the current justification. */
  predicate Shows(v: View, env: Env) {
    v.image.Some? ==>
      var e := env.render(v.currentPage, v.zoom);
      v.image.value == Image(ImageX(v.justification, env.canvasWidth, e.width), e)
  }

  /** `w` is `v` after a redraw of page `w.currentPage`: the page entry shows
      that page's 1-based number, and the canvas holds the page rendered at
      the zoom and justification of `v` with the scroll region reset, or, when
      the page is not in the list, nothing and the old scroll region. No
      other part of the state changes. */
  predicate Redraws(v: View, w: View, env: Env) {
    && w.(currentPage := v.currentPage, pageEntry := v.pageEntry,
          image := v.image, region := v.region) == v
    && w.pageEntry == Some(w.currentPage + 1)
    && (w.image.Some? <==> w.currentPage < v.pageCount)
    && (w.image.Some? ==> w.region == Some(ScrollRegion(env.canvasWidth, w.image.value.extent)))
    && (w.image.None? ==> w.region == v.region)
    && Shows(w, env)
  }

  /** True when showing page `k` reaches the page list with an index that
      is out of range (an IndexError in the reader). */
  predicate ShowPageRaises(v: View, k: nat) {
    k >= v.pageCount
  }

  /** Show page `k`: record it as current, write `k + 1` to the page entry,
      clear the canvas, then draw the rendered page placed according to the
      justification and reset the scroll region. With `k` out of range the
      canvas stays cleared and the scroll region stays as it was. */
  function ShowPage(v: View, k: nat, env: Env): (w: View)
    ensures w.currentPage == k && w.pageEntry == Some(k + 1)
    ensures w.image.Some? <==> !ShowPageRaises(v, k)
    ensures !ShowPageRaises(v, k) ==>
      var e := env.render(k, v.zoom);
      && w.image.value.extent == e
      && w.image.value.x == ImageX(v.justification, env.canvasWidth, e.width)
      && w.region == Some(ScrollRegion(env.canvasWidth, e))
    ensures ShowPageRaises(v, k) ==> w.region == v.region
    ensures Shows(w, env) && Redraws(v, w, env)
    ensures w.(currentPage := v.currentPage, pageEntry := v.pageEntry,
               image := v.image, region := v.region) == v
    ensures Valid(v) && (k < v.pageCount || k == 0) ==> Valid(w)
  {
    var cleared := v.(currentPage := k, pageEntry := Some(k + 1), image := None);
    if ShowPageRaises(v, k) then cleared
    else
      var e := env.render(k, v.zoom);
      cleared.(image := Some(Image(ImageX(v.justification, env.canvasWidth, e.width), e)),
               region := Some(ScrollRegion(env.canvasWidth, e)))
  }

  /** Load a document of `count` pages and show its first page. */
  function LoadPdf(v: View, count: nat, env: Env): (w: View)
    ensures w.loaded && w.pageCount == count && w.totalLabel == count && w.currentPage == 0
    ensures w.image.Some? <==> count > 0
    ensures w.zoom == v.zoom && w.justification == v.justification && w.canvasZoom == v.canvasZoom
    ensures Redraws(v.(loaded := true, pageCount := count, totalLabel := count), w, env)
    ensures w.pageEntry == Some(1) && Shows(w, env)
    ensures Valid(v) ==> Valid(w)
  {
    ShowPage(v.(loaded := true, pageCount := count, totalLabel := count), 0, env)
  }

  predicate CanAdvance(v: View) {
    v.loaded && v.currentPage < v.pageCount - 1
  }

  predicate CanGoBack(v: View) {
    v.loaded && v.currentPage > 0
  }

  function NextPage(v: View, env: Env): (w: View)
    ensures CanAdvance(v) ==> w.currentPage == v.currentPage + 1 && w.image.Some? && Shows(w, env)
    ensures CanAdvance(v) ==> w.zoom == v.zoom && w.justification == v.justification
    ensures CanAdvance(v) ==> Redraws(v, w, env) && w.pageEntry == Some(v.currentPage + 2)
    ensures !CanAdvance(v) ==> w == v
    ensures Valid(v) ==> Valid(w)
  {
    if CanAdvance(v) then ShowPage(v, v.currentPage + 1, env) else v
  }

  function PreviousPage(v: View, env: Env): (w: View)
    ensures CanGoBack(v) ==> w.currentPage == v.currentPage - 1
    ensures CanGoBack(v) ==> w.zoom == v.zoom && w.justification == v.justification
    ensures CanGoBack(v) ==> Redraws(v, w, env) && w.pageEntry == Some(v.currentPage)
    ensures CanGoBack(v) ==> Shows(w, env)
    ensures CanGoBack(v) && Valid(v) ==> w.image.Some?
    ensures !CanGoBack(v) ==> w == v
    ensures Valid(v) ==> Valid(w)
  {
    if CanGoBack(v) then ShowPage(v, v.currentPage - 1, env) else v
  }

  /** Go to the page whose 1-based number was typed into the page entry;
      `None` stands for text that is not an integer. */
  function GotoPage(v: View, typed: Option<int>, env: Env): (w: View)
    ensures typed.Some? && 1 <= typed.value <= v.pageCount ==>
      w.currentPage == typed.value - 1 && w.image.Some? && w.zoom == v.zoom && Shows(w, env)
    ensures typed.Some? && 1 <= typed.value <= v.pageCount ==>
      Redraws(v, w, env) && w.pageEntry == typed && w.justification == v.justification
    ensures !(typed.Some? && 1 <= typed.value <= v.pageCount) ==> w == v
    ensures v.pageCount == 0 ==> w == v
    ensures Valid(v) ==> Valid(w)
  {
    match typed
    case None => v
    case Some(n) =>
      var k := n - 1;
      if 0 <= k < v.pageCount then ShowPage(v, k, env) else v
  }

  /** What the reader writes into the zoom entry: the zoom as a truncated
      percentage. */
  function ZoomText(zoom: real): (t: int)
    ensures zoom >= 0.0 ==> t >= 0 && t as real <= zoom * 100.0 < t as real + 1.0
  {
    Trunc(zoom * 100.0)
  }

  /** Set a new zoom factor, rewrite the zoom entry and redraw. */
  function Rezoom(v: View, zoom: real, env: Env): (w: View)
    ensures w.zoom == zoom && w.zoomEntry == ZoomText(zoom) && w.currentPage == v.currentPage
    ensures Redraws(v.(zoom := zoom, zoomEntry := ZoomText(zoom)), w, env)
  {
    ShowPage(v.(zoom := zoom, zoomEntry := ZoomText(zoom)), v.currentPage, env)
  }

  function ZoomIn(v: View, env: Env): (w: View)
    ensures w.zoom == v.zoom + ZoomStep
    ensures v.zoom >= 0.0 ==> w.zoomEntry as real <= w.zoom * 100.0 < w.zoomEntry as real + 1.0
    ensures w.currentPage == v.currentPage && w.image.Some? == !ShowPageRaises(v, v.currentPage)
    ensures w.justification == v.justification && Shows(w, env)
    ensures w.zoomEntry == ZoomText(w.zoom)
    ensures Redraws(v.(zoom := w.zoom, zoomEntry := ZoomText(w.zoom)), w, env)
    ensures Valid(v) ==> Valid(w)
  {
    Rezoom(v, v.zoom + ZoomStep, env)
  }

  function ZoomOut(v: View, env: Env): (w: View)
    ensures v.zoom > ZoomStep ==> w.zoom == v.zoom - ZoomStep && w.zoom > 0.0
    ensures v.zoom > ZoomStep ==> w.zoomEntry as real <= w.zoom * 100.0 < w.zoomEntry as real + 1.0
    ensures v.zoom > ZoomStep ==> w.currentPage == v.currentPage && w.justification == v.justification
    ensures v.zoom > ZoomStep ==> w.image.Some? == !ShowPageRaises(v, v.currentPage) && Shows(w, env)
    ensures v.zoom > ZoomStep ==>
      w.zoomEntry == ZoomText(w.zoom) &&
      Redraws(v.(zoom := w.zoom, zoomEntry := ZoomText(w.zoom)), w, env)
    ensures v.zoom <= ZoomStep ==> w == v
    ensures Valid(v) ==> Valid(w)
  {
    if v.zoom > ZoomStep then Rezoom(v, v.zoom - ZoomStep, env) else v
  }

  /** Zoom to the percentage typed into the zoom entry (`None`: not a
      number). The entry is left as typed. */
  function UpdateZoom(v: View, typed: Option<real>, env: Env): (w: View)
    ensures typed.Some? && typed.value > 0.0 ==>
      w.zoom == typed.value / 100.0 && w.zoom > 0.0 && w.zoomEntry == v.zoomEntry &&
      w.currentPage == v.currentPage && w.justification == v.justification &&
      w.image.Some? == !ShowPageRaises(v, v.currentPage) && Shows(w, env)
    ensures typed.Some? && typed.value > 0.0 ==> Redraws(v.(zoom := typed.value / 100.0), w, env)
    ensures !(typed.Some? && typed.value > 0.0) ==> w == v
    ensures Valid(v) ==> Valid(w)
  {
    match typed
    case Some(p) =>
      if p > 0.0 then ShowPage(v.(zoom := p / 100.0), v.currentPage, env) else v
    case None => v
  }

  /** Set the canvas scale from the percentage typed into the canvas zoom
      entry; only 20% to 80% is accepted. */
  function UpdateCanvasZoom(v: View, typed: Option<real>): (w: View)
    ensures typed.Some? && 20.0 <= typed.value <= 80.0 ==>
      w == v.(canvasZoom := typed.value / 100.0) && 0.2 <= w.canvasZoom <= 0.8
    ensures !(typed.Some? && 20.0 <= typed.value <= 80.0) ==> w == v
    ensures Valid(v) ==> Valid(w)
  {
    match typed
    case Some(p) => if 20.0 <= p <= 80.0 then v.(canvasZoom := p / 100.0) else v
    case None => v
  }

  function UpdateJustification(v: View, j: Justification, env: Env): (w: View)
    ensures w.justification == j && w.currentPage == v.currentPage && w.zoom == v.zoom
    ensures w.image.Some? ==> w.image.value.x == ImageX(j, env.canvasWidth, w.image.value.extent.width)
    ensures w.image.Some? == !ShowPageRaises(v, v.currentPage)
    ensures Shows(w, env) && Redraws(v.(justification := j), w, env)
    ensures Valid(v) ==> Valid(w)
  {
    ShowPage(v.(justification := j), v.currentPage, env)
  }

  /** Mouse button 1 pressed at (x, y): start a gesture. */
  function ButtonPress(v: View, x: int, y: int): (w: View)
    ensures w.drag == Drag(x, y, false)
    ensures w.(drag := v.drag) == v
    ensures Valid(v) ==> Valid(w)
  {
    v.(drag := Drag(x, y, false))
  }

  /** Pointer moved to `x` with button 1 held: scroll against the motion and
      mark the gesture as a drag. */
  function MouseDrag(v: View, x: int): (w: View)
    ensures w.drag == Drag(x, v.drag.y, true)
    ensures w.lastScroll == Some(XUnits(ScrollUnits(x - v.drag.x)))
    ensures w.(drag := v.drag, lastScroll := v.lastScroll) == v
    ensures Valid(v) ==> Valid(w)
  {
    v.(lastScroll := Some(XUnits(ScrollUnits(x - v.drag.x))), drag := v.drag.(x := x, dragging := true))
  }

  /** Mouse button 1 released: runs next-page exactly when the dragging flag
      and the Ctrl bit are clear (next-page itself does nothing at the last
      page). The flag is the one the last plain press cleared, so after a
      drag a Ctrl-press and release does not turn the page. */
  function ButtonRelease(v: View, state: bv32, env: Env): (w: View)
    ensures !v.drag.dragging && !CtrlHeld(state) ==> w == NextPage(v, env)
    ensures v.drag.dragging || CtrlHeld(state) ==> w == v
    ensures w.currentPage == v.currentPage || w.currentPage == v.currentPage + 1
    ensures Valid(v) ==> Valid(w)
  {
    if !v.drag.dragging && !CtrlHeld(state) then NextPage(v, env) else v
  }

  /** Ctrl + button 1: runs previous-page when the dragging flag is clear
      (previous-page itself does nothing at page 0).
      A Ctrl-press does not run the plain press handler, so a completed drag
      leaves the flag set until the next plain press. */
  function CtrlClick(v: View, env: Env): (w: View)
    ensures !v.drag.dragging ==> w == PreviousPage(v, env)
    ensures v.drag.dragging ==> w == v
    ensures w.currentPage == v.currentPage || w.currentPage == v.currentPage - 1
    ensures Valid(v) ==> Valid(w)
  {
    if !v.drag.dragging then PreviousPage(v, env) else v
  }

  /** Ctrl + wheel: zoom one step per notch. */
  function CtrlMouseWheel(v: View, delta: int, env: Env): (w: View)
    ensures delta > 0 ==> w == ZoomIn(v, env)
    ensures delta <= 0 ==> w == ZoomOut(v, env)
    ensures w.currentPage == v.currentPage
    ensures Valid(v) ==> Valid(w)
  {
    if delta > 0 then ZoomIn(v, env) else ZoomOut(v, env)
  }

  /** Wheel: with Ctrl zoom, otherwise scroll one unit up (delta > 0) or
      down. */
  function MouseWheel(v: View, state: bv32, delta: int, env: Env): (w: View)
    ensures CtrlHeld(state) ==> w == CtrlMouseWheel(v, delta, env)
    ensures !CtrlHeld(state) ==>
      w == v.(lastScroll := Some(YUnits(if delta > 0 then -1 else 1)))
    ensures w.currentPage == v.currentPage
    ensures Valid(v) ==> Valid(w)
  {
    if CtrlHeld(state) then
      if delta > 0 then ZoomIn(v, env) else ZoomOut(v, env)
    else
      v.(lastScroll := Some(YUnits(if delta > 0 then -1 else 1)))
  }

  // ---------------------------------------------------------------------
  // Properties relating several operations

  /** Showing a page in range discards whatever an earlier show left. */
  lemma ShowPageOverwrites(v: View, a: nat, b: nat, env: Env)
    requires b < v.pageCount
    ensures ShowPage(ShowPage(v, a, env), b, env) == ShowPage(v, b, env)
  {
  }

  /** Going forward and then back redraws the page one started from. */
  lemma PreviousAfterNext(v: View, env: Env)
    requires Valid(v) && CanAdvance(v)
    ensures PreviousPage(NextPage(v, env), env) == ShowPage(v, v.currentPage, env)
  {
  }

  /** Going back and then forward redraws the page one started from. */
  lemma NextAfterPrevious(v: View, env: Env)
    requires Valid(v) && CanGoBack(v)
    ensures NextPage(PreviousPage(v, env), env) == ShowPage(v, v.currentPage, env)
  {
  }

  /** A zoom-out undoes a zoom-in: the zoom factor is restored, and the
      only other trace is that the zoom entry now shows that factor. */
  lemma ZoomOutUndoesZoomIn(v: View, env: Env)
    requires Valid(v)
    ensures ZoomOut(ZoomIn(v, env), env) == Rezoom(v, v.zoom, env)
  {
  }

  /** While the zoom is a whole number of steps, zooming out never goes
      below one step (5%). */
  lemma ZoomOutKeepsWholeSteps(v: View, k: nat, env: Env)
    requires k >= 1 && v.zoom == k as real * ZoomStep
    ensures k > 1 ==> ZoomOut(v, env).zoom == (k - 1) as real * ZoomStep
    ensures k == 1 ==> ZoomOut(v, env) == v
    ensures ZoomOut(v, env).zoom >= ZoomStep
  {
  }

  /** A zoom typed into the entry need not be a whole number of steps; from
      7% one zoom-out reaches 2%, below the 5% of a single step. */
  lemma ZoomOutBelowOneStep(v: View, env: Env)
    requires v.zoom == 0.07
    ensures 0.0 < ZoomOut(v, env).zoom < ZoomStep
  {
  }
}
