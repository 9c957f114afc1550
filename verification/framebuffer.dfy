/** An off-screen render target as the collager sees it from the CPU: a size
    and a description of what it holds. Its pixels live on the GPU and are
    not modelled; a buffer's contents are described by the chain of passes
    that produced them. */
module Framebuffers {
  import opened Registry

  /** What a buffer holds, as the pass that last wrote it and what that pass
      read. A pass that starts with `clear()` forgets what was there; the mask
      pass and a blit draw over it, so they keep it as `under`. */
  datatype Layer =
    | Blank
      /** the mask shader's torn piece of `image`, drawn over `under` */
    | Torn(under: Layer, image: Image)
      /** `sprite` blitted over `under` with its top-left corner at
          (originX, originY), rotated by `rotateDegrees` about that corner */
    | Stamped(under: Layer, sprite: Layer, originX: real, originY: real, rotateDegrees: real)
      /** the horizontal and the vertical blur of the outline pass */
    | HorizontalBlur(input: Layer)
    | VerticalBlur(input: Layer)
      /** the threshold pass: the sharp original with an outline cut from
          its blurred copy */
    | Outlined(sharp: Layer, blurred: Layer)
    | Shadowed(input: Layer)
      /** the colour-grade (look-up table) pass */
    | Graded(input: Layer)

  class Framebuffer {
    var width: int
    var height: int
    var contents: Layer

    /** `createFramebuffer()`: a new, transparent buffer of the given size
        (p5 sizes it like the main canvas). */
    constructor (w: int, h: int)
      ensures width == w && height == h && contents == Blank
    {
      width, height, contents := w, h, Blank;
    }

    /** `resize(w, h)`: reallocates the storage, so the contents are lost. */
    method Resize(w: int, h: int)
      modifies this
      ensures width == w && height == h && contents == Blank
    {
      width, height, contents := w, h, Blank;
    }

    /** `begin(); clear(); end();` */
    method Clear()
      modifies this`contents
      ensures contents == Blank
    {
      contents := Blank;
    }

    /** `begin(); ...draw calls...; end();`: a pass or a blit leaves `l` in
        the buffer. */
    method Draw(l: Layer)
      modifies this`contents
      ensures contents == l
    {
      contents := l;
    }
  }
}
