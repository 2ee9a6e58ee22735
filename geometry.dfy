/** Pixel geometry shared by the image services: PIL sizes and paste or draw
    positions are integer pairs. */
module Geometry {
  /** A width and height in pixels, as PIL's Image.size reports them. */
  datatype Dims = Dims(width: int, height: int)

  /** A top-left corner, as passed to PIL's paste and draw.text. */
  datatype Point = Point(x: int, y: int)
}
