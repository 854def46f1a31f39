/** The reader's controller as an object whose fields its handlers update in
    place. Each handler is proved to leave the object in the state the
    matching function of module Viewer gives. */
module Reader {
  import opened Wrappers
  import opened Layout
  import Viewer

  class PDFReader {
    var zoomFactor: real
    var canvasZoomFactor: real
    var justification: Justification
    // the drag record, a dictionary with keys x, y and dragging
    var dragX: int
    var dragY: int
    var dragging: bool
    // whether a document is open, and the length of its page list
    var loaded: bool
    var pageCount: nat
    var currentPage: nat
    // what the reader last wrote into its widgets
    var pageEntry: Option<nat>
    var totalLabel: nat
    var zoomEntry: int
    // what is on the canvas, and the last scroll asked of it
    var image: Option<Viewer.Image>
    var scrollRegion: Option<Region>
    var lastScroll: Option<Viewer.Scroll>

    /** The object's fields as a view-state value. */
    function Snapshot(): Viewer.View
      reads this
    {
      Viewer.View(loaded, pageCount, totalLabel, currentPage, pageEntry, zoomFactor, zoomEntry,
                  canvasZoomFactor, justification, Viewer.Drag(dragX, dragY, dragging),
                  image, scrollRegion, lastScroll)
    }

    constructor ()
      ensures Snapshot() == Viewer.Initial()
    {
      zoomFactor := 1.0;
      canvasZoomFactor := 0.5;
      justification := Center;
      dragX, dragY, dragging := 0, 0, false;
      loaded := false;
      currentPage := 0;
      pageCount := 0;
      pageEntry := None;
      totalLabel := 0;
      zoomEntry := 100;
      image, scrollRegion, lastScroll := None, None, None;
      new;
      // start-up applies the canvas zoom entry's initial "50%"
      UpdateCanvasZoom(Some(50.0));
    }

    /** Shows page `k`; `raised` tells that the page list had no entry `k`. */
    method ShowPage(k: nat, env: Viewer.Env) returns (raised: bool)
      modifies this
      ensures Snapshot() == Viewer.ShowPage(old(Snapshot()), k, env)
      ensures raised == (k >= old(pageCount))
    {
      currentPage := k;
      pageEntry := Some(k + 1);
      image := None;
      if k >= pageCount {
        return true;
      }
      var rendered := env.render(k, zoomFactor);
      var x := ImageX(justification, env.canvasWidth, rendered.width);
      image := Some(Viewer.Image(x, rendered));
      scrollRegion := Some(ScrollRegion(env.canvasWidth, rendered));
      raised := false;
    }

    method LoadPdf(count: nat, env: Viewer.Env) returns (raised: bool)
      modifies this
      ensures Snapshot() == Viewer.LoadPdf(old(Snapshot()), count, env)
      ensures raised == (count == 0)
    {
      loaded := true;
      pageCount := count;
      totalLabel := count;
      raised := ShowPage(0, env);
    }

    method NextPage(env: Viewer.Env)
      modifies this
      ensures Snapshot() == Viewer.NextPage(old(Snapshot()), env)
    {
      if loaded && currentPage < pageCount - 1 {
        var raised := ShowPage(currentPage + 1, env);
        assert !raised;
      }
    }

    /** `raised` is true only on a state outside Viewer.Valid, where the
        current page lies more than one past the end of the page list. */
    method PreviousPage(env: Viewer.Env) returns (raised: bool)
      modifies this
      ensures Snapshot() == Viewer.PreviousPage(old(Snapshot()), env)
      ensures raised == (old(loaded) && old(currentPage) > 0 && old(currentPage) - 1 >= old(pageCount))
      ensures Viewer.Valid(old(Snapshot())) ==> !raised
    {
      raised := false;
      if loaded && currentPage > 0 {
        raised := ShowPage(currentPage - 1, env);
      }
    }

    method GotoPage(typed: Option<int>, env: Viewer.Env)
      modifies this
      ensures Snapshot() == Viewer.GotoPage(old(Snapshot()), typed, env)
    {
      if typed.Some? {
        var k := typed.value - 1;
        if 0 <= k < pageCount {
          var raised := ShowPage(k, env);
          assert !raised;
        }
      }
    }

    method UpdateZoomEntry()
      modifies this
      ensures Snapshot() == old(Snapshot()).(zoomEntry := Viewer.ZoomText(zoomFactor))
    {
      zoomEntry := Trunc(zoomFactor * 100.0);
    }

    method ZoomIn(env: Viewer.Env) returns (raised: bool)
      modifies this
      ensures Snapshot() == Viewer.ZoomIn(old(Snapshot()), env)
      ensures raised == (old(currentPage) >= old(pageCount))
    {
      zoomFactor := zoomFactor + Viewer.ZoomStep;
      UpdateZoomEntry();
      raised := ShowPage(currentPage, env);
    }

    method ZoomOut(env: Viewer.Env) returns (raised: bool)
      modifies this
      ensures Snapshot() == Viewer.ZoomOut(old(Snapshot()), env)
      ensures raised == (old(zoomFactor) > Viewer.ZoomStep && old(currentPage) >= old(pageCount))
    {
      raised := false;
      if zoomFactor > Viewer.ZoomStep {
        zoomFactor := zoomFactor - Viewer.ZoomStep;
        UpdateZoomEntry();
        raised := ShowPage(currentPage, env);
      }
    }

    method UpdateZoom(typed: Option<real>, env: Viewer.Env) returns (raised: bool)
      modifies this
      ensures Snapshot() == Viewer.UpdateZoom(old(Snapshot()), typed, env)
      ensures raised == (typed.Some? && typed.value > 0.0 && old(currentPage) >= old(pageCount))
    {
      raised := false;
      if typed.Some? && typed.value > 0.0 {
        zoomFactor := typed.value / 100.0;
        raised := ShowPage(currentPage, env);
      }
    }

    method UpdateCanvasZoom(typed: Option<real>)
      modifies this
      ensures Snapshot() == Viewer.UpdateCanvasZoom(old(Snapshot()), typed)
    {
      if typed.Some? && 20.0 <= typed.value <= 80.0 {
        canvasZoomFactor := typed.value / 100.0;
      }
    }

    method UpdateJustification(j: Justification, env: Viewer.Env) returns (raised: bool)
      modifies this
      ensures Snapshot() == Viewer.UpdateJustification(old(Snapshot()), j, env)
      ensures raised == (old(currentPage) >= old(pageCount))
    {
      justification := j;
      raised := ShowPage(currentPage, env);
    }

    method OnButtonPress(x: int, y: int)
      modifies this
      ensures Snapshot() == Viewer.ButtonPress(old(Snapshot()), x, y)
    {
      dragX := x;
      dragY := y;
      dragging := false;
    }

    method OnMouseDrag(x: int)
      modifies this
      ensures Snapshot() == Viewer.MouseDrag(old(Snapshot()), x)
    {
      var deltaX := x - dragX;
      lastScroll := Some(Viewer.XUnits(ScrollUnits(deltaX)));
      dragX := x;
      dragging := true;
    }

    method OnButtonRelease(state: bv32, env: Viewer.Env)
      modifies this
      ensures Snapshot() == Viewer.ButtonRelease(old(Snapshot()), state, env)
    {
      if !dragging && !CtrlHeld(state) {
        NextPage(env);
      }
    }

    method OnCtrlClick(env: Viewer.Env) returns (raised: bool)
      modifies this
      ensures Snapshot() == Viewer.CtrlClick(old(Snapshot()), env)
      ensures raised == (!old(dragging) && old(loaded) && old(currentPage) > 0
                         && old(currentPage) - 1 >= old(pageCount))
      ensures Viewer.Valid(old(Snapshot())) ==> !raised
    {
      raised := false;
      if !dragging {
        raised := PreviousPage(env);
      }
    }

    method OnMouseWheel(state: bv32, delta: int, env: Viewer.Env) returns (raised: bool)
      modifies this
      ensures Snapshot() == Viewer.MouseWheel(old(Snapshot()), state, delta, env)
      ensures raised == (CtrlHeld(state) && (delta > 0 || old(zoomFactor) > Viewer.ZoomStep)
                         && old(currentPage) >= old(pageCount))
    {
      raised := false;
      if CtrlHeld(state) {
        if delta > 0 {
          raised := ZoomIn(env);
        } else {
          raised := ZoomOut(env);
        }
      } else {
        lastScroll := Some(Viewer.YUnits(if delta > 0 then -1 else 1));
      }
    }

    method OnCtrlMouseWheel(delta: int, env: Viewer.Env) returns (raised: bool)
      modifies this
      ensures Snapshot() == Viewer.CtrlMouseWheel(old(Snapshot()), delta, env)
      ensures raised == ((delta > 0 || old(zoomFactor) > Viewer.ZoomStep)
                         && old(currentPage) >= old(pageCount))
    {
      if delta > 0 {
        raised := ZoomIn(env);
      } else {
        raised := ZoomOut(env);
      }
    }
  }
}
