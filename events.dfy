/** The inputs the reader is bound to, one event kind per binding, and runs
    of events from a state. */
module Events {
  import opened Wrappers
  import opened Layout
  import opened Viewer

  datatype Event =
    | Press(x: int, y: int)                      // <Button-1>
    | Motion(x: int)                             // <B1-Motion>
    | Release(state: bv32)                       // <ButtonRelease-1>
    | CtrlPress                                  // <Control-Button-1>
    | Wheel(state: bv32, delta: int)             // <MouseWheel>
    | CtrlWheel(delta: int)                      // <Control-MouseWheel>
    | NextButton                                 // "Next"
    | PreviousButton                             // "Previous"
    | PageEntered(page: Option<int>)             // <Return> in the page entry
    | ZoomInButton                               // "+"
    | ZoomOutButton                              // "-"
    | ZoomEntered(percent: Option<real>)         // <Return> in the zoom entry
    | CanvasZoomEntered(scale: Option<real>)     // <Return> in the canvas zoom entry
    | JustificationSelected(j: Justification)    // <<ComboboxSelected>>
    | Opened(pageCount: nat)                     // File > Open, a file chosen

  function Dispatch(v: View, e: Event, env: Env): (w: View)
    ensures Valid(v) ==> Valid(w)
    ensures e.Press? || e.Motion? ==> w.currentPage == v.currentPage && w.zoom == v.zoom
  {
    match e
    case Press(x, y) => ButtonPress(v, x, y)
    case Motion(x) => MouseDrag(v, x)
    case Release(state) => ButtonRelease(v, state, env)
    case CtrlPress => CtrlClick(v, env)
    case Wheel(state, delta) => MouseWheel(v, state, delta, env)
    case CtrlWheel(delta) => CtrlMouseWheel(v, delta, env)
    case NextButton => NextPage(v, env)
    case PreviousButton => PreviousPage(v, env)
    case PageEntered(typed) => GotoPage(v, typed, env)
    case ZoomInButton => ZoomIn(v, env)
    case ZoomOutButton => ZoomOut(v, env)
    case ZoomEntered(typed) => UpdateZoom(v, typed, env)
    case CanvasZoomEntered(typed) => UpdateCanvasZoom(v, typed)
    case JustificationSelected(j) => UpdateJustification(v, j, env)
    case Opened(n) => LoadPdf(v, n, env)
  }

  /** The state after the events `evs`, handled in order. */
  function Run(v: View, evs: seq<Event>, env: Env): (w: View)
    ensures Valid(v) ==> Valid(w)
    decreases |evs|
  {
    if evs == [] then v else Run(Dispatch(v, evs[0], env), evs[1..], env)
  }

  /** Every state reached from start-up keeps the invariant; in particular
      the current page is a page of the document once one is shown. */
  lemma ReachableIsValid(evs: seq<Event>, env: Env)
    ensures Valid(Run(Initial(), evs, env))
    ensures var w := Run(Initial(), evs, env);
      w.pageCount > 0 ==> w.currentPage < w.pageCount
  {
  }

  lemma {:induction false} RunAppend(v: View, a: seq<Event>, b: seq<Event>, env: Env)
    ensures Run(v, a + b, env) == Run(Run(v, a, env), b, env)
    decreases |a|
  {
    if a == [] {
      assert a + b == b;
    } else {
      assert (a + b)[0] == a[0] && (a + b)[1..] == a[1..] + b;
      RunAppend(Dispatch(v, a[0], env), a[1..], b, env);
    }
  }

  /** The motion events of a drag through the x coordinates `xs`. */
  function Motions(xs: seq<int>): (evs: seq<Event>)
    ensures |evs| == |xs|
    ensures forall i :: 0 <= i < |xs| ==> evs[i] == Motion(xs[i])
  {
    if xs == [] then [] else [Motion(xs[0])] + Motions(xs[1..])
  }

  /** A non-empty run of motions only scrolls and marks the drag: the
      record ends at the last x, flagged as dragging. */
  lemma {:induction false} MotionsOnlyDrag(v: View, xs: seq<int>, env: Env)
    requires |xs| > 0
    ensures var w := Run(v, Motions(xs), env);
      && w.drag == Drag(xs[|xs| - 1], v.drag.y, true)
      && w.lastScroll.Some? && w.lastScroll.value.XUnits?
      && w.(drag := v.drag, lastScroll := v.lastScroll) == v
    decreases |xs|
  {
    var u := MouseDrag(v, xs[0]);
    var evs := Motions(xs);
    assert evs[0] == Motion(xs[0]);
    assert Run(v, evs, env) == Run(u, evs[1..], env);
    if |xs| > 1 {
      assert evs[1..] == Motions(xs[1..]);
      MotionsOnlyDrag(u, xs[1..], env);
    } else {
      assert evs[1..] == [];
    }
  }

  /** Press, at least one motion, release: the page does not turn, and
      nothing but the drag record and the requested scroll changes. */
  lemma DragDoesNotTurnPage(v: View, x: int, y: int, xs: seq<int>, state: bv32, env: Env)
    requires |xs| > 0
    ensures var w := Run(v, [Press(x, y)] + Motions(xs) + [Release(state)], env);
      && w.currentPage == v.currentPage
      && w.drag == Drag(xs[|xs| - 1], y, true)
      && w.(drag := v.drag, lastScroll := v.lastScroll) == v
  {
    var p := ButtonPress(v, x, y);
    RunAppend(v, [Press(x, y)] + Motions(xs), [Release(state)], env);
    RunAppend(v, [Press(x, y)], Motions(xs), env);
    assert Run(v, [Press(x, y)], env) == Run(p, [], env);
    MotionsOnlyDrag(p, xs, env);
    var m := Run(p, Motions(xs), env);
    assert Run(m, [Release(state)], env) == Run(ButtonRelease(m, state, env), [], env);
  }

  /** Press and release without Ctrl and without motion turns the page
      forward whenever there is a next page. */
  lemma ClickTurnsPage(v: View, x: int, y: int, state: bv32, env: Env)
    requires !CtrlHeld(state)
    ensures Run(v, [Press(x, y), Release(state)], env) == NextPage(ButtonPress(v, x, y), env)
    ensures CanAdvance(v) ==>
      Run(v, [Press(x, y), Release(state)], env).currentPage == v.currentPage + 1
  {
    var p := ButtonPress(v, x, y);
    assert Run(v, [Press(x, y), Release(state)], env) == Run(p, [Release(state)], env);
    assert Run(p, [Release(state)], env) == Run(ButtonRelease(p, state, env), [], env);
  }

  /** Releasing with Ctrl held never turns the page. */
  lemma CtrlReleaseKeepsPage(v: View, x: int, y: int, state: bv32, env: Env)
    requires CtrlHeld(state)
    ensures Run(v, [Press(x, y), Release(state)], env) == ButtonPress(v, x, y)
  {
    var p := ButtonPress(v, x, y);
    assert Run(v, [Press(x, y), Release(state)], env) == Run(p, [Release(state)], env);
    assert Run(p, [Release(state)], env) == Run(ButtonRelease(p, state, env), [], env);
  }

  /** Going to page n + 1 by its 1-based number shows page index n. */
  lemma GotoEveryPage(v: View, n: nat, env: Env)
    requires n < v.pageCount
    ensures Run(v, [PageEntered(Some(n + 1))], env).currentPage == n
  {
  }

  /** A Ctrl-click does not reset the drag record, so right after a
      completed drag it does not turn the page back. */
  lemma CtrlClickAfterDragKeepsPage(v: View, x: int, y: int, x2: int, state: bv32, env: Env)
    ensures Run(v, [Press(x, y), Motion(x2), Release(state), CtrlPress], env).currentPage == v.currentPage
  {
    var p := ButtonPress(v, x, y);
    var m := MouseDrag(p, x2);
    assert Run(v, [Press(x, y), Motion(x2), Release(state), CtrlPress], env)
        == Run(p, [Motion(x2), Release(state), CtrlPress], env);
    assert Run(p, [Motion(x2), Release(state), CtrlPress], env)
        == Run(m, [Release(state), CtrlPress], env);
    assert Run(m, [Release(state), CtrlPress], env) == Run(m, [CtrlPress], env);
    assert Run(m, [CtrlPress], env) == Run(m, [], env);
  }

  /** The release handler reads the dragging flag, not the gesture: after a
      completed drag, a Ctrl-press followed by a release with Ctrl clear
      still finds the flag set and does not turn the page. */
  lemma CtrlPressReleaseAfterDragKeepsPage(v: View, x: int, y: int, x2: int, s1: bv32, s2: bv32, env: Env)
    ensures Run(v, [Press(x, y), Motion(x2), Release(s1), CtrlPress, Release(s2)], env).currentPage
         == v.currentPage
  {
    var m := MouseDrag(ButtonPress(v, x, y), x2);
    assert Run(v, [Press(x, y), Motion(x2), Release(s1), CtrlPress, Release(s2)], env)
        == Run(m, [Release(s1), CtrlPress, Release(s2)], env);
    assert Run(m, [Release(s1), CtrlPress, Release(s2)], env) == Run(m, [CtrlPress, Release(s2)], env);
    assert Run(m, [CtrlPress, Release(s2)], env) == Run(m, [Release(s2)], env);
    assert Run(m, [Release(s2)], env) == Run(m, [], env);
  }
}
