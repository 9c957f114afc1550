/** The collager: the image registry, the render targets it owns, the
    persistent outline settings, and the pass sequence of `drawImage`.

    Shader programs and the pixels they produce are not modelled; a pass
    leaves in its target a `Layer` naming the pass and what its source held,
    and does not touch its source. The parameters the CPU computes for the
    mask and outline shaders are returned as values. Every `random(a, b)` the
    code calls is a unit draw supplied by the caller (see module Sampling).
 */
module Collage {
  import opened Sampling
  import opened Vectors
  import opened Registry
  import opened PingPong
  import opened MaskPass
  import opened OutlinePass
  import opened Framebuffers

  datatype Result<T, E> = Ok(value: T) | Err(error: E)

  /** `drawImage` fails in one way only: the chosen index names no registry
      entry, and reading `minRatio` of the missing profile throws. */
  datatype DrawError = UndefinedProfile(index: int)

  /** The arguments `drawImage` gives the mask pass, and its defaults. */
  const TearThicknessRatio: real := 0.2
  const ShapeNoiseScale: real := 0.1
  const DetailTearRatio: real := 0.5
  const UseDetailNoise: bool := true

  /** The outline colour `drawImage` asks for: opaque white. */
  const White: Rgba := Rgba(1.0, 1.0, 1.0, 1.0)

  /** Where the torn sprite is blitted into the source buffer: the origin is
      moved to the centre of the piece's rectangle and rotated, and the
      sprite's top-left corner is drawn at that origin. */
  datatype Placement = Placement(translateX: real, translateY: real, rotateDegrees: real)

  /** What one completed `drawImage` did: the registry index it used, where
      it placed the sprite, the mask and outline parameters it computed, the
      (source, target) buffers of its three effect passes in order, the
      buffer it blitted to the canvas and what that buffer held then. */
  datatype Piece = Piece(
    index: int,
    placement: Placement,
    mask: MaskUniforms,
    outline: OutlineUniforms,
    passes: seq<(Framebuffer, Framebuffer)>,
    presented: Framebuffer,
    shown: Layer)

  /** What the outline pass leaves in its target when its source holds `s`:
      `s` itself, with the outline thresholded from its horizontally then
      vertically blurred copy. */
  function OutlineOf(s: Layer): Layer
  {
    Outlined(s, VerticalBlur(HorizontalBlur(s)))
  }

  /** What the three effect passes make of a source holding `s`: outline,
      then shadow, then colour grade, each reading the previous one's output. */
  function Finished(s: Layer): Layer
  {
    Graded(Shadowed(OutlineOf(s)))
  }

  /** The registry index `drawImage` uses: an explicit index as given, or for
      -1 `floor(random(0, count))`. */
  function ChosenIndex(imageIndex: int, u: Unit, count: nat): (i: int)
    ensures imageIndex != -1 ==> i == imageIndex
    ensures imageIndex == -1 && count > 0 ==> 0 <= i < count
    ensures imageIndex == -1 && count == 0 ==> i == 0
  {
    if imageIndex == -1 then RandomIndex(u, count) else imageIndex
  }

  /** With -1 the choice fails exactly when the registry is empty; an
      explicit index fails exactly when it is out of range. */
  lemma ChosenIndexDefined(imageIndex: int, u: Unit, count: nat)
    ensures imageIndex == -1 ==> (0 <= ChosenIndex(imageIndex, u, count) < count <==> count > 0)
    ensures imageIndex != -1 ==> (0 <= ChosenIndex(imageIndex, u, count) < count <==> 0 <= imageIndex < count)
  {}

  class Collager {
    /** Size of the main canvas, which `createFramebuffer()` gives new
        buffers and onto which the finished piece is blitted. */
    const canvasWidth: int
    const canvasHeight: int

    var images: seq<Image>
    var collageProfiles: seq<CollageProfile>

    var imgPieceBuffer: Framebuffer

    var swapState: bool
    var frameBufferA: Framebuffer
    var frameBufferB: Framebuffer
    var sourceBuffer: Framebuffer
    var targetBuffer: Framebuffer

    /** Scratch buffers of the outline blur, created on first use. */
    var blurBuffer: Framebuffer?
    var blurBuffer2: Framebuffer?

    var outlineThickness: real
    var doOutline: bool
    var outlineQualityLevel: real
    var outlineNoiseScale: real

    /** The backing buffer of a ping-pong slot. */
    function BufferAt(s: Slot): Framebuffer
      reads this
    {
      if s == A then frameBufferA else frameBufferB
    }

    ghost predicate Valid()
      reads this
    {
      // four distinct buffers, and the roles of A and B follow swapState
      imgPieceBuffer != frameBufferA && imgPieceBuffer != frameBufferB && frameBufferA != frameBufferB &&
      sourceBuffer == BufferAt(Source(swapState)) && targetBuffer == BufferAt(Target(swapState)) &&
      // the blur buffers exist together and are distinct from the others
      (blurBuffer == null <==> blurBuffer2 == null) &&
      (blurBuffer != null ==>
        blurBuffer != blurBuffer2 &&
        blurBuffer !in {imgPieceBuffer, frameBufferA, frameBufferB} &&
        blurBuffer2 !in {imgPieceBuffer, frameBufferA, frameBufferB}) &&
      // the two registry lists stay parallel
      |images| == |collageProfiles|
    }

    /** Every buffer the collager owns. */
    ghost function Buffers(): set<Framebuffer?>
      reads this
    {
      {imgPieceBuffer, frameBufferA, frameBufferB, blurBuffer, blurBuffer2}
    }

    /** The blur scratch buffers that exist. */
    ghost function BlurBuffers(): set<Framebuffer?>
      reads this
    {
      {blurBuffer, blurBuffer2}
    }

    /** The persistent outline settings. */
    function Settings(): OutlineSettings
      reads this
    {
      OutlineSettings(outlineThickness, doOutline, outlineQualityLevel, outlineNoiseScale)
    }

    /** The registry as a list of (image, profile) entries. */
    ghost function Registered(): seq<(Image, CollageProfile)>
      reads this
      requires Valid()
    {
      Entries(images, collageProfiles)
    }

    constructor (canvasWidth: int, canvasHeight: int)
      ensures Valid()
      ensures this.canvasWidth == canvasWidth && this.canvasHeight == canvasHeight
      ensures images == [] && collageProfiles == []
      ensures swapState && sourceBuffer == frameBufferA && targetBuffer == frameBufferB
      ensures fresh(imgPieceBuffer) && fresh(frameBufferA) && fresh(frameBufferB)
      ensures imgPieceBuffer.width == canvasWidth && imgPieceBuffer.height == canvasHeight && imgPieceBuffer.contents == Blank
      ensures frameBufferA.width == canvasWidth && frameBufferA.height == canvasHeight && frameBufferA.contents == Blank
      ensures frameBufferB.width == canvasWidth && frameBufferB.height == canvasHeight && frameBufferB.contents == Blank
      ensures blurBuffer == null && blurBuffer2 == null
      ensures Settings() == DefaultSettings
    {
      this.canvasWidth, this.canvasHeight := canvasWidth, canvasHeight;
      images, collageProfiles := [], [];
      imgPieceBuffer := new Framebuffer(canvasWidth, canvasHeight);
      swapState := true;
      frameBufferA := new Framebuffer(canvasWidth, canvasHeight);
      frameBufferB := new Framebuffer(canvasWidth, canvasHeight);
      sourceBuffer, targetBuffer := frameBufferA, frameBufferB;
      blurBuffer, blurBuffer2 := null, null;
      outlineThickness, doOutline, outlineQualityLevel, outlineNoiseScale := 10.0, true, 1.0, 1.2;
    }

    /** `addImage`, once the image has loaded: one image and its profile are
        appended, so the two lists grow together. */
    method AddImage(img: Image, minRatio: real, maxRatio: real)
      requires Valid()
      modifies this`images, this`collageProfiles
      ensures Valid()
      ensures images == old(images) + [img]
      ensures collageProfiles == old(collageProfiles) + [CollageProfile(minRatio, maxRatio)]
      ensures Registered() == old(Registered()) + [(img, CollageProfile(minRatio, maxRatio))]
    {
      EntriesAppend(images, collageProfiles, img, CollageProfile(minRatio, maxRatio));
      images := images + [img];
      collageProfiles := collageProfiles + [CollageProfile(minRatio, maxRatio)];
    }

    /** `clearImages`: empties the registry; no buffer and no setting is
        touched (the frame names only the two lists). */
    method ClearImages()
      requires Valid()
      modifies this`images, this`collageProfiles
      ensures Valid()
      ensures images == [] && collageProfiles == [] && Registered() == []
    {
      images := [];
      collageProfiles := [];
    }

    /** `FboSwap`: flips swapState and sets the roles from it. */
    method FboSwap()
      requires Valid()
      modifies this`swapState, this`sourceBuffer, this`targetBuffer
      ensures Valid()
      ensures swapState == !old(swapState)
      ensures sourceBuffer == old(targetBuffer) && targetBuffer == old(sourceBuffer)
      ensures (sourceBuffer == frameBufferA && targetBuffer == frameBufferB) <==> swapState
      ensures sourceBuffer != targetBuffer
    {
      swapState := !swapState;
      if swapState {
        sourceBuffer := frameBufferA;
        targetBuffer := frameBufferB;
      } else {
        sourceBuffer := frameBufferB;
        targetBuffer := frameBufferA;
      }
    }

    /** `clearBuffers`: clears the piece buffer and both ping-pong buffers.
        The blur buffers are not cleared. */
    method ClearBuffers()
      requires Valid()
      modifies imgPieceBuffer`contents, frameBufferA`contents, frameBufferB`contents
      ensures imgPieceBuffer.contents == Blank && frameBufferA.contents == Blank && frameBufferB.contents == Blank
      ensures blurBuffer != null ==> blurBuffer.contents == old(blurBuffer.contents)
      ensures blurBuffer2 != null ==> blurBuffer2.contents == old(blurBuffer2.contents)
    {
      imgPieceBuffer.Clear();
      frameBufferA.Clear();
      frameBufferB.Clear();
    }

    /** `outlineWeight`: sets the thickness and switches the outline on. */
    method OutlineWeight(thickness: real)
      modifies this`outlineThickness, this`doOutline
      ensures Settings() == old(Settings()).(thickness := thickness, enabled := true)
    {
      outlineThickness := thickness;
      doOutline := true;
    }

    /** `outlineQuality`: sets the blur quality level only. */
    method OutlineQuality(qualityLevel: real)
      modifies this`outlineQualityLevel
      ensures Settings() == old(Settings()).(quality := qualityLevel)
    {
      outlineQualityLevel := qualityLevel;
    }

    /** `outlineNoiseScale`: sets the outline noise scale only. */
    method OutlineNoiseScale(scale: real)
      modifies this`outlineNoiseScale
      ensures Settings() == old(Settings()).(noiseScale := scale)
    {
      outlineNoiseScale := scale;
    }

    /** `noOutline`: switches the outline off and nothing else. */
    method NoOutline()
      modifies this`doOutline
      ensures Settings() == old(Settings()).(enabled := false)
    {
      doOutline := false;
    }

    /** `maskedImagePass`: computes the crop and noise parameters for the
        image at `targetImgIndex` and draws the torn sprite over whatever
        `target` holds (the pass does not clear it). An index with no profile
        throws before anything is drawn. */
    method MaskedImagePass(
      target: Framebuffer, targetImgIndex: int,
      tearThicknessRatio: real, shapeNoiseScale: real, detailTearRatio: real, useDetailNoise: bool,
      d: MaskDraws)
      returns (r: Result<MaskUniforms, DrawError>)
      requires Valid()
      requires target.width > 0 && target.height > 0
      modifies target`contents
      ensures r.Ok? <==> 0 <= targetImgIndex < |collageProfiles|
      ensures r.Err? ==> r.error == UndefinedProfile(targetImgIndex) && target.contents == old(target.contents)
      ensures r.Ok? ==> target.contents == Torn(old(target.contents), images[targetImgIndex])
      ensures r.Ok? ==> r.value == MaskUniformsFor(
        AspectRatio(target.width, target.height),
        images[targetImgIndex], collageProfiles[targetImgIndex], d,
        tearThicknessRatio, shapeNoiseScale, detailTearRatio, useDetailNoise)
    {
      var aspectRatio := AspectRatio(target.width, target.height);
      if !(0 <= targetImgIndex < |collageProfiles|) {
        r := Err(UndefinedProfile(targetImgIndex));
        return;
      }
      var m := MaskUniformsFor(
        aspectRatio, images[targetImgIndex], collageProfiles[targetImgIndex], d,
        tearThicknessRatio, shapeNoiseScale, detailTearRatio, useDetailNoise);
      target.Draw(Torn(target.contents, images[targetImgIndex]));
      r := Ok(m);
    }

    /** `blurOutlinePass`: horizontal blur of `source` into a half-size
        scratch buffer, vertical blur into a second one of the same size, then
        the threshold pass into `target`. The scratch buffers are created the
        first time and reused after. */
    method BlurOutlinePass(source: Framebuffer, target: Framebuffer, outlineColor: Rgba, d: OutlineDraws)
      returns (u: OutlineUniforms)
      requires Valid()
      requires source in {imgPieceBuffer, frameBufferA, frameBufferB}
      requires target in {imgPieceBuffer, frameBufferA, frameBufferB}
      requires source != target
      modifies this`blurBuffer, this`blurBuffer2, target`contents, BlurBuffers()
      ensures Valid()
      ensures blurBuffer != null && blurBuffer2 != null
      ensures old(blurBuffer) != null ==> blurBuffer == old(blurBuffer) && blurBuffer2 == old(blurBuffer2)
      ensures old(blurBuffer) == null ==> fresh(blurBuffer) && fresh(blurBuffer2)
      ensures blurBuffer.width == HalfCeil(target.width) && blurBuffer.height == HalfCeil(target.height)
      ensures blurBuffer2.width == blurBuffer.width && blurBuffer2.height == blurBuffer.height
      ensures blurBuffer.contents == HorizontalBlur(source.contents)
      ensures blurBuffer2.contents == VerticalBlur(blurBuffer.contents)
      ensures target.contents == Outlined(source.contents, blurBuffer2.contents)
      ensures unchanged(source)
      ensures u == OutlineUniformsFor(target.width, target.height, Settings(), outlineColor, d)
      ensures u.blurWidth == blurBuffer.width && u.blurHeight == blurBuffer.height
    {
      if blurBuffer == null {
        blurBuffer := new Framebuffer(canvasWidth, canvasHeight);
      }
      blurBuffer.Resize(HalfCeil(target.width), HalfCeil(target.height));
      blurBuffer.Draw(HorizontalBlur(source.contents));
      if blurBuffer2 == null {
        blurBuffer2 := new Framebuffer(canvasWidth, canvasHeight);
      }
      blurBuffer2.Resize(blurBuffer.width, blurBuffer.height);
      blurBuffer2.Draw(VerticalBlur(blurBuffer.contents));
      target.Draw(Outlined(source.contents, blurBuffer2.contents));
      u := OutlineUniformsFor(target.width, target.height, Settings(), outlineColor, d);
    }

    /** `shadowPass`: clears `target` and draws `source` with its drop
        shadow into it. */
    method ShadowPass(source: Framebuffer, target: Framebuffer)
      requires source != target
      modifies target`contents
      ensures target.contents == Shadowed(source.contents)
      ensures unchanged(source)
    {
      target.Draw(Shadowed(source.contents));
    }

    /** `lutPass`: clears `target` and draws `source`, colour graded through
        the look-up table, into it. */
    method LutPass(source: Framebuffer, target: Framebuffer)
      requires source != target
      modifies target`contents
      ensures target.contents == Graded(source.contents)
      ensures unchanged(source)
    {
      target.Draw(Graded(source.contents));
    }


    /** The effect passes of `drawImage`: outline, shadow and colour grade,
        each reading the source buffer and writing the target, each followed
        by one swap. */
    method EffectPasses(outlineDraws: OutlineDraws)
      returns (outline: OutlineUniforms, passes: seq<(Framebuffer, Framebuffer)>)
      requires Valid()
      modifies this`swapState, this`sourceBuffer, this`targetBuffer, this`blurBuffer, this`blurBuffer2, Buffers()
      ensures Valid()
      ensures imgPieceBuffer == old(imgPieceBuffer) && frameBufferA == old(frameBufferA) && frameBufferB == old(frameBufferB)
      ensures unchanged(imgPieceBuffer)
      ensures frameBufferA.width == old(frameBufferA.width) && frameBufferA.height == old(frameBufferA.height)
      ensures frameBufferB.width == old(frameBufferB.width) && frameBufferB.height == old(frameBufferB.height)
      ensures outline == OutlineUniformsFor(old(targetBuffer.width), old(targetBuffer.height), Settings(), White, outlineDraws)
      ensures swapState == !old(swapState)
      ensures sourceBuffer == old(targetBuffer) && targetBuffer == old(sourceBuffer)
      ensures |passes| == 3
      ensures forall i :: 0 <= i < 3 ==>
        passes[i].0 == BufferAt(Passes(old(swapState), 3)[i].0) &&
        passes[i].1 == BufferAt(Passes(old(swapState), 3)[i].1)
      ensures sourceBuffer == BufferAt(Source(Swaps(old(swapState), 3)))
      ensures blurBuffer != null && blurBuffer2 != null
      // the blur buffers are created on first use and the same ones reused
      ensures old(blurBuffer) != null ==> blurBuffer == old(blurBuffer) && blurBuffer2 == old(blurBuffer2)
      ensures old(blurBuffer) == null ==> fresh(blurBuffer) && fresh(blurBuffer2)
      ensures blurBuffer.contents == HorizontalBlur(old(sourceBuffer.contents))
      ensures blurBuffer2.contents == VerticalBlur(blurBuffer.contents)
      ensures blurBuffer.width == HalfCeil(old(targetBuffer.width)) && blurBuffer.height == HalfCeil(old(targetBuffer.height))
      ensures blurBuffer2.width == blurBuffer.width && blurBuffer2.height == blurBuffer.height
      // the outline went to the first target, the shadow over the first
      // source, the colour grade over the outline
      ensures targetBuffer.contents == Shadowed(OutlineOf(old(sourceBuffer.contents)))
      ensures sourceBuffer.contents == Finished(old(sourceBuffer.contents))
    {
      ghost var s0 := swapState;

      var p0 := (sourceBuffer, targetBuffer);
      outline := BlurOutlinePass(sourceBuffer, targetBuffer, White, outlineDraws);
      FboSwap();

      var p1 := (sourceBuffer, targetBuffer);
      ShadowPass(sourceBuffer, targetBuffer);
      FboSwap();

      var p2 := (sourceBuffer, targetBuffer);
      LutPass(sourceBuffer, targetBuffer);
      FboSwap();

      passes := [p0, p1, p2];
      ThreePasses(s0);
      ThreeSwaps(s0);
    }

    /** `drawImage`: picks the image, builds the torn sprite in the piece
        buffer resized to (w, h), blits it into the source buffer, runs the
        outline, shadow and colour-grade passes with one swap after each,
        blits the result to the canvas and clears the buffers. The outline
        pass runs whether or not the outline is switched on. */
    method DrawImage(
      x: real, y: real, w: int, h: int, rotateDegree: real, imageIndex: int,
      indexDraw: Unit, maskDraws: MaskDraws, outlineDraws: OutlineDraws)
      returns (r: Result<Piece, DrawError>)
      requires Valid()
      requires w > 0 && h > 0
      modifies this`swapState, this`sourceBuffer, this`targetBuffer, this`blurBuffer, this`blurBuffer2, Buffers()
      ensures Valid()
      ensures images == old(images) && collageProfiles == old(collageProfiles)
      ensures Settings() == old(Settings())
      ensures imgPieceBuffer.width == w && imgPieceBuffer.height == h
      ensures frameBufferA.width == old(frameBufferA.width) && frameBufferA.height == old(frameBufferA.height)
      ensures frameBufferB.width == old(frameBufferB.width) && frameBufferB.height == old(frameBufferB.height)
      ensures r.Ok? <==> 0 <= ChosenIndex(imageIndex, indexDraw, |old(images)|) < |old(images)|
      // a missing profile throws after the resize and before any pass
      ensures r.Err? ==>
        r.error == UndefinedProfile(ChosenIndex(imageIndex, indexDraw, |old(images)|)) &&
        imgPieceBuffer.contents == Blank &&
        swapState == old(swapState) && sourceBuffer == old(sourceBuffer) && targetBuffer == old(targetBuffer) &&
        unchanged(frameBufferA) && unchanged(frameBufferB) &&
        blurBuffer == old(blurBuffer) && blurBuffer2 == old(blurBuffer2) &&
        (blurBuffer != null ==> unchanged(blurBuffer) && unchanged(blurBuffer2))
      ensures r.Ok? ==>
        var piece := r.value;
        piece.index == ChosenIndex(imageIndex, indexDraw, |old(images)|) &&
        piece.placement == Placement(x + w as real / 2.0, y + h as real / 2.0, rotateDegree) &&
        piece.mask == MaskUniformsFor(
          AspectRatio(w, h), old(images)[piece.index], old(collageProfiles)[piece.index], maskDraws,
          TearThicknessRatio, ShapeNoiseScale, DetailTearRatio, UseDetailNoise) &&
        piece.outline == OutlineUniformsFor(
          old(targetBuffer.width), old(targetBuffer.height), old(Settings()), White, outlineDraws)
      // three passes, three swaps: the roles end up exchanged
      ensures r.Ok? ==>
        swapState == !old(swapState) &&
        sourceBuffer == old(targetBuffer) && targetBuffer == old(sourceBuffer) &&
        |r.value.passes| == 3 &&
        (forall i :: 0 <= i < 3 ==>
          r.value.passes[i].0 == BufferAt(Passes(old(swapState), 3)[i].0) &&
          r.value.passes[i].1 == BufferAt(Passes(old(swapState), 3)[i].1)) &&
        r.value.presented == BufferAt(Source(Swaps(old(swapState), 3)))
      // the canvas receives the torn piece, stamped over what the source
      // held, outlined, shadowed and colour graded, in that order
      ensures r.Ok? ==>
        var stamped := Stamped(
          old(sourceBuffer.contents), Torn(Blank, old(images)[r.value.index]),
          r.value.placement.translateX, r.value.placement.translateY, r.value.placement.rotateDegrees);
        r.value.shown == Finished(stamped) &&
        blurBuffer != null && blurBuffer2 != null &&
        blurBuffer.contents == HorizontalBlur(stamped) &&
        blurBuffer2.contents == VerticalBlur(HorizontalBlur(stamped))
      // the blur buffers are created on first use and the same ones reused
      ensures r.Ok? && old(blurBuffer) != null ==> blurBuffer == old(blurBuffer) && blurBuffer2 == old(blurBuffer2)
      ensures r.Ok? && old(blurBuffer) == null ==> blurBuffer != null && fresh(blurBuffer) && fresh(blurBuffer2)
      // clearBuffers leaves the blur buffers as the outline pass left them
      ensures r.Ok? ==>
        imgPieceBuffer.contents == Blank && frameBufferA.contents == Blank && frameBufferB.contents == Blank &&
        blurBuffer != null && blurBuffer2 != null &&
        blurBuffer.width == HalfCeil(old(targetBuffer.width)) &&
        blurBuffer.height == HalfCeil(old(targetBuffer.height)) &&
        blurBuffer2.width == blurBuffer.width && blurBuffer2.height == blurBuffer.height
    {
      var targetImgIndex := ChosenIndex(imageIndex, indexDraw, |images|);

      // image mask pass: the torn sprite
      imgPieceBuffer.Resize(w, h);
      var mask := MaskedImagePass(
        imgPieceBuffer, targetImgIndex,
        TearThicknessRatio, ShapeNoiseScale, DetailTearRatio, UseDetailNoise, maskDraws);
      if mask.Err? {
        r := Err(mask.error);
        return;
      }

      // the sprite, moved and rotated, into the source buffer
      var placement := Placement(x + w as real / 2.0, y + h as real / 2.0, rotateDegree);
      sourceBuffer.Draw(Stamped(
        sourceBuffer.contents, imgPieceBuffer.contents,
        placement.translateX, placement.translateY, placement.rotateDegrees));

      var outline, passes := EffectPasses(outlineDraws);

      // the final source buffer is blitted onto the canvas
      var presented, shown := sourceBuffer, sourceBuffer.contents;
      ClearBuffers();

      r := Ok(Piece(targetImgIndex, placement, mask.value, outline, passes, presented, shown));
    }
  }
}
