# PDF Reader view-state controller, in Dafny

This project models the view-state controller of a small Tk PDF viewer: the
`PDFReader` object with its current page, page count, open-document flag,
zoom factor, canvas zoom factor, justification and drag record. It models the
handlers that change that state: page navigation, zoom, justification, and the
mouse press/drag/release/wheel gestures. It also models the integer layout
arithmetic of `show_page`. The model covers:

- `layout.dfy` (module `Layout`): where the page image goes on the canvas, the
  scroll region, how many units a drag scrolls (Python's truncating
  `int(-dx / 2)`), `int()` on a real, and the Ctrl bit (0x0004) of an event's
  state mask.
- `viewer.dfy` (module `Viewer`): the view state as a value `View`. It has one
  function per handler giving the state after that handler, the invariant
  `Valid` that every handler keeps, and lemmas relating handlers.
- `events.dfy` (module `Events`): one event kind per widget binding, `Run` over
  a sequence of events, and the gesture properties. A drag never turns the
  page. A plain click does.
- `reader.dfy` (module `Reader`): the class `PDFReader`. Its fields mirror the
  Python object, and the drag dictionary becomes three fields. Each handler
  updates the fields step by step, in the source's order. Each is proved to
  leave `Snapshot()` equal to the matching `Viewer` function of the old state.

Inputs from outside the controller are parameters:

- `Env.render(page, zoom)` is the image size the rasteriser produces.
- `Env.canvasWidth` is the canvas width the toolkit reports.
- A text field's content arrives already parsed, as `Option<int>` or
  `Option<real>`. `None` stands for the text that made `int()` or `float()`
  raise ValueError.

Scroll requests are recorded in `lastScroll` instead of being performed.

With no document open, the page list is empty. `show_page` then sets the
current page and the page entry, clears the canvas, and fails indexing the page
list (IndexError). The model does exactly that, and it also covers a document
with zero pages. `ShowPageRaises` says when this happens. The class methods
that can reach it return `raised`. `show_page` is the last statement of
every handler that changes the view state, so the state after
the exception is the state the functions give. (`open_file` goes on to call
`adjust_window_size`, which the exception skips. Window geometry is not part
of this model.)

Points where the code does something other than one might expect:

- One might expect zoom-out to floor at 5%. The code only checks
  `zoom_factor > 0.05` before subtracting 0.05 (main.py:209). The floor
  therefore holds, in exact arithmetic, only while the zoom is a whole number of 5% steps
  (`Viewer.ZoomOutKeepsWholeSteps`). A zoom typed in as 7% goes to 2%
  (`Viewer.ZoomOutBelowOneStep`). With the program's binary floating point
  even whole steps drift; see the floating-point line under "Left out".
- `on_ctrl_click` is defined twice with identical bodies (main.py:129 and
  main.py:247). The later one is the live one and is the one cited.
- Tk runs only the most specific binding for an event. A Ctrl-press runs
  `on_ctrl_click` (main.py:106) and not `on_button_press` (main.py:104), so
  the model's `CtrlPress` event is not also a `Press`. It follows that a
  Ctrl-press does not clear the dragging flag. After a completed drag the
  flag stays set until the next plain press, and a Ctrl-click then does
  nothing (`Events.CtrlClickAfterDragKeepsPage`).
- By the same rule a Ctrl-wheel runs `on_ctrl_mouse_wheel` (main.py:108), so
  the Ctrl branch of `on_mouse_wheel` (main.py:252-256) is never reached
  through the bindings. The model keeps that branch. It does no harm:
  `Viewer.MouseWheel` with Ctrl held equals `Viewer.CtrlMouseWheel`.
- `next_page` and `previous_page` test the truthiness of the open document,
  which is false for a document of zero pages. The model tests `loaded`. It
  makes no difference: in both handlers the page-index guard already fails
  when there are no pages, given `Valid`.

## Model

| member | source | states |
|---|---|---|
| Layout.ImageX | main.py:158-165 | x is never negative. An image no wider than the canvas lies inside it. Left gives 0. Right puts the image flush with the right edge. Center makes the two margins differ by at most one pixel. An image at least as wide as the canvas goes at 0. |
| Layout.PlacementExamples | main.py:159-165 | For canvas width 800 and image width 600: left 0, center 100, right 200. A drag of 3, -3 and 4 pixels scrolls -1, 1 and -2 units. |
| Layout.ScrollRegion | main.py:169 | The scroll region is at least as wide as both the image and the canvas, exactly as wide as one of them, and as high as the image. |
| Layout.ScrollUnits | main.py:119-121 | The drag scroll is half the displacement against the motion, truncated toward zero: twice the units never exceed the displacement, and they fall short of it by less than two. |
| Layout.Trunc | main.py:225 | `int()` of a real truncates toward zero: the result is within one of the real, on the zero side. |
| Viewer.Initial | main.py:12-101 | At start-up no document is open, there are no pages, the page is 0, zoom is 1.0, canvas zoom is 0.5 and justification is center. The drag record is (0, 0, not dragging), the zoom entry shows 100 and the "/N" label 0. The page entry is empty, the canvas is empty with no scroll region, and no scroll has been requested. The invariant holds. |
| Viewer.ShowPage | main.py:152-171 | The current page becomes k and the page entry k + 1. An image is drawn exactly when k indexes the page list. It is drawn at the rendered size, placed by ImageX, with the scroll region from ScrollRegion. Otherwise the canvas is left cleared and the old scroll region kept. Either way the canvas shows the current page at the current zoom and justification, or nothing (`Shows`). Nothing else changes. `Redraws` packages these facts for the handlers that call it. The invariant is kept for any k in range or k = 0. |
| Viewer.LoadPdf | main.py:139-144 | After loading, the document is open, the page count and the "/N" label equal the new count, the page is 0 and the page entry shows 1. Page 0 is drawn at the current zoom and justification exactly when the count is positive, and the scroll region is reset then. Nothing else changes (`Redraws`), and the invariant is kept. |
| Viewer.NextPage | main.py:227-229 | With a document open and a later page, it moves to current + 1, the page entry shows current + 2, and that page is drawn at the current zoom and justification with the scroll region reset. Nothing else changes (`Redraws`). Otherwise the state is unchanged, so it does nothing at the last page. It keeps the invariant. |
| Viewer.PreviousPage | main.py:231-233 | With a document open and a page above 0, it moves to current - 1, the page entry shows current, and that page is drawn at the current zoom and justification (with the scroll region reset when the page is in the list). Nothing else changes (`Redraws`). Otherwise the state is unchanged, so it does nothing at page 0. It keeps the invariant. |
| Viewer.GotoPage | main.py:235-241 | A typed number n with 1 <= n <= page count shows page n - 1 with n in the page entry, drawn at the current zoom and justification with the scroll region reset. Nothing else changes (`Redraws`). Any other number, or text that is not a number, leaves the whole state unchanged, always so with no pages. It keeps the invariant. |
| Viewer.ZoomText | main.py:223-225 | The zoom entry shows the zoom as a percentage truncated to an integer. |
| Viewer.Rezoom | main.py:203-206 | Setting a zoom writes its truncated percentage to the zoom entry, then redraws the current page at that zoom. Nothing else changes (`Redraws`). |
| Viewer.ZoomIn | main.py:203-206 | The zoom grows by exactly one 0.05 step. The entry shows the new percentage. The same page is redrawn at the new zoom whenever it is in the page list, with the scroll region reset. Nothing else changes (`Redraws`). The invariant, including zoom > 0, is kept. |
| Viewer.ZoomOut | main.py:208-212 | Above 0.05 the zoom drops by one step and stays positive. The entry is rewritten, and the page is redrawn at the new zoom whenever it is in the page list, with the scroll region reset. Nothing else changes (`Redraws`). At or below 0.05 nothing changes. It keeps the invariant. |
| Viewer.UpdateZoom | main.py:214-221 | A typed positive percentage p sets the zoom to p / 100 and redraws the page at that zoom whenever it is in the page list, leaving the entry as typed. Nothing else changes (`Redraws`). A non-positive value or non-numeric text changes nothing. |
| Viewer.UpdateCanvasZoom | main.py:173-180 | A typed value between 20 and 80 inclusive sets the canvas zoom to value / 100 and changes nothing else. Anything else, or non-numeric text, changes nothing. The canvas zoom stays within 0.2 to 0.8. |
| Viewer.UpdateJustification | main.py:243-245 | The justification becomes the selected one. The current page is redrawn at the current zoom, placed by ImageX for that justification, exactly when the page indexes the list, with the scroll region reset. Nothing else changes (`Redraws`). |
| Viewer.ButtonPress | main.py:114-117 | A press records (x, y) and clears the dragging flag, and changes nothing else. |
| Viewer.MouseDrag | main.py:119-123 | A motion asks for a horizontal scroll of ScrollUnits(x - previous x), records x, keeps y and sets dragging. Nothing else changes. |
| Viewer.ButtonRelease | main.py:125-127 | A release runs next-page exactly when the dragging flag and the Ctrl bit are clear, and otherwise changes nothing. Next-page itself does nothing at the last page or with no document. A Ctrl-press does not clear the flag, so after a drag a Ctrl-press and release leaves the page. The page moves by at most +1. |
| Viewer.CtrlClick | main.py:247-249 | A Ctrl-click runs previous-page exactly when the dragging flag is clear, and otherwise changes nothing. Previous-page itself does nothing at page 0 or with no document. A Ctrl-click does not clear the flag, so after a completed drag it stays set until the next plain press. |
| Viewer.CtrlMouseWheel | main.py:260-264 | A positive delta zooms in and any other delta zooms out. The page index is kept. |
| Viewer.MouseWheel | main.py:251-258 | With Ctrl held it acts as the Ctrl-wheel handler. Otherwise it only asks for a vertical scroll of -1 unit for a positive delta and +1 otherwise. |
| Viewer.ShowPageOverwrites | main.py:152-169 | Showing a page in range after any earlier show gives the same state as showing it alone. |
| Viewer.PreviousAfterNext | main.py:227-233 | When a next page exists, next then previous redraws the starting page. |
| Viewer.NextAfterPrevious | main.py:227-233 | When a previous page exists, previous then next redraws the starting page. |
| Viewer.ZoomOutUndoesZoomIn | main.py:203-212 | Zoom-in then zoom-out restores the zoom factor. The only lasting trace is the rewritten zoom entry (and the redrawn page). |
| Viewer.ZoomOutKeepsWholeSteps | main.py:208-212 | From a zoom of k steps of 0.05 (k >= 1), zoom-out reaches k - 1 steps, or stays put at one step. So the zoom never falls below 0.05 on that lattice. |
| Viewer.ZoomOutBelowOneStep | main.py:208-212 | From a zoom of 0.07, zoom-out gives a positive zoom below 0.05. |
| Events.Dispatch | main.py:104-109 | Each bound event runs its handler. Every handler keeps the invariant, and press and motion never change the page or the zoom. |
| Events.Run | main.py:104-109 | Any sequence of events keeps the invariant. |
| Events.ReachableIsValid | main.py:8-109 | From start-up, every reachable state keeps the invariant. Once the document has pages, the current page indexes one of them. |
| Events.RunAppend | main.py:104-109 | Handling a + b equals handling a and then b. |
| Events.Motions | main.py:109 | Turns a list of x coordinates into one motion event per coordinate, in order. |
| Events.MotionsOnlyDrag | main.py:119-123 | A non-empty run of motions leaves the drag record at the last x with dragging set, and records a horizontal scroll. Everything else is unchanged. |
| Events.DragDoesNotTurnPage | main.py:114-127 | Press, one or more motions, then release leaves the page and all other state as before, except the drag record and the scroll request. |
| Events.ClickTurnsPage | main.py:114-127 | Press then release with Ctrl clear equals the press followed by next-page. It advances the page by one whenever a next page exists. |
| Events.CtrlReleaseKeepsPage | main.py:125-127 | Press then a release with Ctrl held leaves only the press's effect. |
| Events.CtrlPressReleaseAfterDragKeepsPage | main.py:104-131 | Press, motion, release, Ctrl-press, then a release with Ctrl clear leaves the page where it was: the release still reads the dragging flag left by the drag. |
| Events.CtrlClickAfterDragKeepsPage | main.py:104-131 | Press, motion, release, then Ctrl-press leaves the page where it was: the drag flag is still set when the Ctrl-click arrives. |
| Events.GotoEveryPage | main.py:235-241 | For every page index n, entering n + 1 shows page n. |
| Reader.PDFReader.constructor | main.py:8-101 | The new object's state is the start-up state, after the canvas zoom entry's initial "50%" is applied. |
| Reader.PDFReader.ShowPage | main.py:152-171 | The fields become Viewer.ShowPage of the old state. `raised` is true exactly when the index is out of the page list. |
| Reader.PDFReader.LoadPdf | main.py:139-144 | The fields become Viewer.LoadPdf of the old state. It raises exactly for a document with zero pages. |
| Reader.PDFReader.NextPage | main.py:227-229 | The fields become Viewer.NextPage of the old state. |
| Reader.PDFReader.PreviousPage | main.py:231-233 | The fields become Viewer.PreviousPage of the old state. `raised` is true exactly when it moves back to an index outside the page list, which no state satisfying Viewer.Valid allows. |
| Reader.PDFReader.GotoPage | main.py:235-241 | The fields become Viewer.GotoPage of the old state. |
| Reader.PDFReader.UpdateZoomEntry | main.py:223-225 | Only the zoom entry changes, to the truncated percentage of the zoom. |
| Reader.PDFReader.ZoomIn | main.py:203-206 | The fields become Viewer.ZoomIn of the old state. It raises exactly when the current page is not in the list. |
| Reader.PDFReader.ZoomOut | main.py:208-212 | The fields become Viewer.ZoomOut of the old state. It raises only when it zoomed and the page is not in the list. |
| Reader.PDFReader.UpdateZoom | main.py:214-221 | The fields become Viewer.UpdateZoom of the old state. It raises only when a positive value was accepted and the page is not in the list. |
| Reader.PDFReader.UpdateCanvasZoom | main.py:173-180 | The fields become Viewer.UpdateCanvasZoom of the old state. |
| Reader.PDFReader.UpdateJustification | main.py:243-245 | The fields become Viewer.UpdateJustification of the old state. It raises exactly when the page is not in the list. |
| Reader.PDFReader.OnButtonPress | main.py:114-117 | The fields become Viewer.ButtonPress of the old state. |
| Reader.PDFReader.OnMouseDrag | main.py:119-123 | The fields become Viewer.MouseDrag of the old state. |
| Reader.PDFReader.OnButtonRelease | main.py:125-127 | The fields become Viewer.ButtonRelease of the old state. |
| Reader.PDFReader.OnCtrlClick | main.py:247-249 | The fields become Viewer.CtrlClick of the old state. It raises only through previous-page, and never from a state satisfying Viewer.Valid. |
| Reader.PDFReader.OnMouseWheel | main.py:251-258 | The fields become Viewer.MouseWheel of the old state. It raises only through a Ctrl-wheel zoom on a page not in the list. |
| Reader.PDFReader.OnCtrlMouseWheel | main.py:260-264 | The fields become Viewer.CtrlMouseWheel of the old state. It raises only through a zoom on a page not in the list. |

## Left out

- Widget construction, packing, menus and key bindings (main.py:17-109) are left out. They are UI plumbing; `Events.Event` names the bindings that matter.
- The file dialog and `fitz.open` (main.py:133-143) are left out because they are I/O and a foreign library. Loading takes only the page count, and a cancelled dialog is no event.
- Page rasterisation in `render_page` (main.py:146-150) is left out because it calls foreign libraries. The image size is the input `Env.render`.
- Window geometry in `set_canvas_size` and `adjust_window_size` (main.py:182-201) is left out because it depends on screen and widget queries. `UpdateCanvasZoom` therefore records the scale but resizes nothing, and the canvas width is an input.
- Floating-point arithmetic is left out. Zoom and canvas zoom are exact reals, so repeated 0.05 steps do not drift. In doubles, nineteen zoom-outs from 1.0 stop just below 0.05, and the entry then shows 4%. Viewer.ZoomText truncates the exact product, where the program truncates a float product. NaN and infinite typed values are not modelled.
- Scrolling itself (`xview_scroll`, `yview_scroll`, and the scrollbar pass-through `canvas_xview`) is a toolkit side effect. Only the requested units are recorded.
- The justification is one of Left, Center and Right, the three combobox values. The program lower-cases whatever string the combobox holds and centres anything that is not "left" or "right". Free text typed into the editable combobox is not modelled.
- Text typed into the page and zoom entries is an input of the handler that reads it. The entry fields of `View` hold only what the program itself last wrote.
- The canvas's image items are collapsed into one optional image, and the Python reference kept to stop garbage collection has no counterpart.
- Events.Run takes one `Env` for a whole sequence. A window resized between events is covered only by the single-event functions. For the same reason `render(k, zoom)` within one run cannot tell page k of one document from page k of a second document opened later in that run.
