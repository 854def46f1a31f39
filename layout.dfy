/** The integer arithmetic of the viewer: where a page image is placed on the
    canvas, how large the scroll region is, how far a drag scrolls, and how
    the Ctrl modifier is read from an event's state mask. */
module Layout {

  /** Horizontal alignment of the page image inside the canvas. */
  datatype Justification = Left | Center | Right

  /** Size in pixels of a rendered page image. */
  datatype Extent = Extent(width: nat, height: nat)

  /** The canvas scroll region (0, 0, width, height). */
  datatype Region = Region(width: int, height: int)

  function Max(a: int, b: int): (m: int)
    ensures m >= a && m >= b && (m == a || m == b)
  {
    if a >= b then a else b
  }

  /** The x coordinate of the image's north-west corner for the given
      justification, canvas width and image width. */
  function ImageX(j: Justification, canvasWidth: int, imageWidth: int): (x: int)
    ensures x >= 0
    ensures imageWidth >= canvasWidth ==> x == 0
    ensures imageWidth <= canvasWidth ==> x + imageWidth <= canvasWidth
    ensures j == Left ==> x == 0
    ensures j == Right && imageWidth <= canvasWidth ==> x + imageWidth == canvasWidth
    // centred: the left margin is the right margin, or one pixel less
    ensures j == Center && imageWidth <= canvasWidth ==>
      x <= canvasWidth - imageWidth - x <= x + 1
  {
    match j
    case Left => 0
    case Right => Max(canvasWidth - imageWidth, 0)
    // Python's `//` floors; for the divisor 2 Dafny's Euclidean `/` agrees
    case Center => Max((canvasWidth - imageWidth) / 2, 0)
  }

  /** The scroll region set after a page is drawn. */
  function ScrollRegion(canvasWidth: int, image: Extent): (r: Region)
    ensures r.width >= image.width && r.width >= canvasWidth
    ensures r.width == image.width || r.width == canvasWidth
    ensures r.height == image.height
  {
    Region(Max(image.width, canvasWidth), image.height)
  }

  /** Horizontal scroll units requested by a drag of `deltaX` pixels:
      `int(-deltaX / 2)`, half the displacement against the drag,
      truncated toward zero. */
  function ScrollUnits(deltaX: int): (u: int)
    ensures deltaX <= 0 ==> 0 <= 2 * u <= -deltaX < 2 * u + 2
    ensures deltaX >= 0 ==> 2 * u - 2 < -deltaX <= 2 * u <= 0
  {
    var n := -deltaX;
    if n >= 0 then n / 2 else -((-n) / 2)
  }

  /** Truncation of a real toward zero, as Python's `int()` does. */
  function Trunc(r: real): (t: int)
    ensures r >= 0.0 ==> t >= 0 && t as real <= r < t as real + 1.0
    ensures r < 0.0 ==> t <= 0 && t as real - 1.0 < r <= t as real
  {
    if r >= 0.0 then r.Floor else -((-r).Floor)
  }

  /** Mask of the Control modifier in a Tk event's state. */
  const ControlMask: bv32 := 0x0004

  predicate CtrlHeld(state: bv32) {
    state & ControlMask != 0
  }

  lemma PlacementExamples()
    ensures ImageX(Left, 800, 600) == 0
    ensures ImageX(Center, 800, 600) == 100
    ensures ImageX(Right, 800, 600) == 200
    ensures ScrollUnits(3) == -1 && ScrollUnits(-3) == 1 && ScrollUnits(4) == -2
  {
  }
}
