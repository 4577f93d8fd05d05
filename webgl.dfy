/** `resizeCanvasToDisplaySize`: the drawing buffer of a canvas follows the
    size the page lays the canvas out at, times a pixel-ratio multiplier. */
module WebGl {
  import opened Wrappers

  /** JavaScript's `x | 0` for a finite number: truncation toward zero,
      then wrap-around into the signed 32-bit range. */
  function ToInt32(r: real): (n: int)
    ensures -0x8000_0000 <= n < 0x8000_0000
    ensures -0x8000_0000 <= Truncate(r) < 0x8000_0000 ==> n == Truncate(r)
    ensures (n - Truncate(r)) % 0x1_0000_0000 == 0
  {
    (Truncate(r) + 0x8000_0000) % 0x1_0000_0000 - 0x8000_0000
  }

  /** The integer part of `r`, dropping the fraction toward zero. */
  function Truncate(r: real): (n: int)
    ensures 0.0 <= r ==> 0 <= n && n as real <= r < n as real + 1.0
    ensures r < 0.0 ==> n <= 0 && n as real - 1.0 < r <= n as real
  {
    if r >= 0.0 then r.Floor else -((-r).Floor)
  }

  /** `multiplier || 1`: an absent or zero multiplier means 1. */
  function EffectiveMultiplier(multiplier: Option<real>): (m: real)
    ensures multiplier.None? || multiplier.value == 0.0 ==> m == 1.0
    ensures multiplier.Some? && multiplier.value != 0.0 ==> m == multiplier.value
    ensures m != 0.0
  {
    if multiplier.None? || multiplier.value == 0.0 then 1.0 else multiplier.value
  }

  /** The drawing-buffer size a canvas of the given client size should have. */
  function TargetSize(clientSize: int, multiplier: Option<real>): int
  {
    ToInt32(clientSize as real * EffectiveMultiplier(multiplier))
  }

  /** The outcome of one call on a canvas whose drawing buffer is
      `width` × `height`: whether it changed, and the new size. */
  datatype Resize = Resize(changed: bool, width: int, height: int)

  function Resized(width: int, height: int, clientWidth: int, clientHeight: int,
                   multiplier: Option<real>): (r: Resize)
    ensures r.width == TargetSize(clientWidth, multiplier)
    ensures r.height == TargetSize(clientHeight, multiplier)
    ensures r.changed <==> (width, height) != (r.width, r.height)
  {
    var w := TargetSize(clientWidth, multiplier);
    var h := TargetSize(clientHeight, multiplier);
    if width != w || height != h then Resize(true, w, h) else Resize(false, width, height)
  }

  /** A second resize with the same client size and multiplier changes
      nothing and reports so. */
  lemma ResizeIdempotent(width: int, height: int, clientWidth: int, clientHeight: int,
                         multiplier: Option<real>)
    ensures var first := Resized(width, height, clientWidth, clientHeight, multiplier);
            Resized(first.width, first.height, clientWidth, clientHeight, multiplier)
              == Resize(false, first.width, first.height)
  {
  }

  /** With a multiplier of 1 and a non-negative client size below 2^31, the
      buffer gets exactly the client size. */
  lemma UnitMultiplierKeepsClientSize(clientSize: int, multiplier: Option<real>)
    requires multiplier == None || multiplier == Some(0.0) || multiplier == Some(1.0)
    requires 0 <= clientSize < 0x8000_0000
    ensures TargetSize(clientSize, multiplier) == clientSize
  {
    assert EffectiveMultiplier(multiplier) == 1.0;
    assert Truncate(clientSize as real) == clientSize;
  }

  /** The canvas element: its drawing-buffer size, which the function
      writes, and its laid-out size, which it reads. */
  class Canvas {
    var width: int
    var height: int
    var clientWidth: int
    var clientHeight: int

    constructor(width: int, height: int, clientWidth: int, clientHeight: int)
      ensures this.width == width && this.height == height
      ensures this.clientWidth == clientWidth && this.clientHeight == clientHeight
    {
      this.width := width;
      this.height := height;
      this.clientWidth := clientWidth;
      this.clientHeight := clientHeight;
    }
  }

  /** Sets the drawing buffer to the target size when either dimension
      differs from it and reports whether it did; otherwise the canvas is
      left as it was. */
  method ResizeCanvasToDisplaySize(canvas: Canvas, multiplier: Option<real>) returns (changed: bool)
    modifies canvas
    ensures var r := Resized(old(canvas.width), old(canvas.height),
                             canvas.clientWidth, canvas.clientHeight, multiplier);
            changed == r.changed && canvas.width == r.width && canvas.height == r.height
    ensures changed <==> old(canvas.width) != TargetSize(canvas.clientWidth, multiplier)
                         || old(canvas.height) != TargetSize(canvas.clientHeight, multiplier)
    ensures !changed ==> canvas.width == old(canvas.width) && canvas.height == old(canvas.height)
    ensures canvas.clientWidth == old(canvas.clientWidth)
    ensures canvas.clientHeight == old(canvas.clientHeight)
  {
    var width := TargetSize(canvas.clientWidth, multiplier);
    var height := TargetSize(canvas.clientHeight, multiplier);
    if canvas.width != width || canvas.height != height {
      canvas.width := width;
      canvas.height := height;
      return true;
    }
    return false;
  }
}
