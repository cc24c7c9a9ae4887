/**
 * Scene positions, image sizes and the conversion of a scene position to the
 * image pixel under it.
 */
module Geometry {
  import opened Wrappers

  /** A position with real coordinates: a view (widget) position or a scene position. */
  datatype Point = Point(x: real, y: real)

  /** A pixel extent of a decoded image; a non-null pixmap is never empty. */
  type Extent = n: nat | 0 < n witness 1

  /** The pixel width and height of a loaded image. */
  datatype Size = Size(width: Extent, height: Extent)

  /** Integer image-pixel coordinates. */
  datatype Pixel = Pixel(x: int, y: int)

  /** Python's `int(r)` on a float: truncation toward zero, not floor. */
  function Trunc(r: real): (t: int)
    ensures 0.0 <= r ==> 0 <= t && t as real <= r < t as real + 1.0
    ensures r < 0.0 ==> t <= 0 && t as real - 1.0 < r <= t as real
  {
    if r >= 0.0 then r.Floor else -((-r).Floor)
  }

  /** The pixel a scene position falls in, truncating each coordinate toward zero. */
  function ToPixel(scene: Point): Pixel
  {
    Pixel(Trunc(scene.x), Trunc(scene.y))
  }

  /** The bounds test of the canvas: `0 <= x < width` and `0 <= y < height`. */
  predicate InImage(size: Size, p: Pixel)
  {
    0 <= p.x < size.width && 0 <= p.y < size.height
  }

  /**
   * The image pixel under a scene position, or None when no image is loaded or
   * the truncated position is off the image. Because truncation goes toward
   * zero, the scene positions accepted are exactly the open rectangle
   * (-1, width) x (-1, height), one pixel wider to the top and left than the
   * image itself.
   */
  function PixelUnder(image: Option<Size>, scene: Point): (r: Option<Pixel>)
    ensures r.Some? <==>
      image.Some?
      && -1.0 < scene.x < image.value.width as real
      && -1.0 < scene.y < image.value.height as real
    ensures r.Some? ==> InImage(image.value, r.value) && r.value == ToPixel(scene)
  {
    if image.Some? && InImage(image.value, ToPixel(scene)) then Some(ToPixel(scene)) else None
  }

  /**
   * A scene position just left of (or above) the image, less than one pixel
   * away, is taken to be on column (row) 0 of the image.
   */
  lemma SliverLeftOfImage(size: Size, scene: Point)
    requires -1.0 < scene.x < 0.0
    requires 0.0 <= scene.y < size.height as real
    ensures PixelUnder(Some(size), scene) == Some(Pixel(0, scene.y.Floor))
  {
  }

  /** Truncation and floor differ on every negative non-integer, e.g. on (-1, 0). */
  lemma TruncIsNotFloor(r: real)
    requires r < 0.0 && r != r.Floor as real
    ensures Trunc(r) == r.Floor + 1
  {
  }
}
