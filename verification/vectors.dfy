/** Small value types the shader parameters are made of. */
module Vectors {

  /** A pair of shader floats (`vec2`). */
  datatype Vec2 = Vec2(x: real, y: real)

  /** A colour with alpha, each channel in shader units. */
  datatype Rgba = Rgba(r: real, g: real, b: real, a: real)

  /** A colour without alpha (`vec3`). */
  datatype Rgb = Rgb(r: real, g: real, b: real)

  /** The first three channels of a colour, as `slice(0, 3)` takes them. */
  function RgbOf(c: Rgba): Rgb { Rgb(c.r, c.g, c.b) }
}
