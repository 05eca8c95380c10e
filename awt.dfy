/**
 * The java.awt types the image routines and the recognition bridge share: an ARGB colour, a
 * raster image of such colours and an integer rectangle with its containment test.
 */
module Awt {

  /** One 8-bit channel of a java.awt.Color. */
  type Channel = c: int | 0 <= c <= 255

  /** A java.awt.Color: alpha, red, green and blue channels. */
  datatype Color = Color(alpha: Channel, red: Channel, green: Channel, blue: Channel)

  /** `new Color(r, g, b)`: the three-argument constructor always yields an opaque colour. */
  function Opaque(red: Channel, green: Channel, blue: Channel): Color {
    Color(255, red, green, blue)
  }

  /**
   * A BufferedImage as a two-dimensional array of colours indexed `[x, y]`: `image[x, y]` is
   * `getRGB(x, y)`, `Length0` is the width and `Length1` the height, and the minimum x and y are 0.
   */
  type Image = array2<Color>

  /** A java.awt.Rectangle: top-left corner (x, y), width and height. */
  datatype Rectangle = Rectangle(x: int, y: int, width: int, height: int)

  /**
   * `outer.contains(inner)` of java.awt.Rectangle. A rectangle with a negative dimension contains
   * nothing, and nothing with a zero or negative width or height is contained in anything.
   */
  predicate Contains(outer: Rectangle, inner: Rectangle) {
    && outer.width >= 0 && outer.height >= 0
    && inner.width > 0 && inner.height > 0
    && outer.x <= inner.x && outer.y <= inner.y
    && inner.x + inner.width <= outer.x + outer.width
    && inner.y + inner.height <= outer.y + outer.height
  }
}
