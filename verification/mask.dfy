/** The CPU-side arithmetic of the mask pass: how much of the source image a
    piece shows, where the crop window sits, and how the two noise textures
    that tear its edge are tiled. */
module MaskPass {
  import opened Sampling
  import opened Registry
  import opened Vectors

  /** The seven values the mask pass draws, in the order it draws them:
      the draw-size ratio, the crop offset (x, y), the shape-noise offset
      (x, y) and the detail-noise offset (x, y). */
  datatype MaskDraws = MaskDraws(
    ratio: Unit,
    cropX: Unit, cropY: Unit,
    noiseX: Unit, noiseY: Unit,
    detailX: Unit, detailY: Unit)

  /** What the mask pass hands to the mask shader, with the draw-size ratio it
      sampled on the way. Crop offsets and scales are in the source image's
      UV space, where the whole image is [0, 1] x [0, 1]. */
  datatype MaskUniforms = MaskUniforms(
    mainTexture: Image,
    drawSizeRatio: real,
    cropOffset: Vec2,
    cropScale: Vec2,
    useDetailNoise: real,
    tearRatio: real,
    detailTearRatio: real,
    noiseOffset: Vec2,
    noiseScale: Vec2,
    detailNoiseOffset: Vec2,
    detailNoiseScale: Vec2)

  /** Base tiling of the detail (tear) noise. */
  const BaseDetailScale: real := 0.2

  /** Width over height of the target buffer. */
  function AspectRatio(w: int, h: int): (a: real)
    requires w > 0 && h > 0
    ensures a > 0.0
    ensures a * h as real == w as real
    ensures a > 1.0 <==> w > h
  {
    w as real / h as real
  }

  /** Noise tiling for a target of the given aspect ratio: only the longer
      axis is stretched, by exactly the ratio of the sides, so that a noise
      texel stays square whatever the target's shape. */
  function AspectTiling(base: real, aspect: real): (t: Vec2)
    requires aspect > 0.0
    ensures t.x == base || t.y == base
    ensures t.x == t.y * aspect
    ensures base > 0.0 ==> t.x >= base && t.y >= base
  {
    var x := base * (if aspect > 1.0 then aspect else 1.0);
    var y := base * (if aspect < 1.0 then 1.0 / aspect else 1.0);
    TilingFacts(base, aspect, x, y);
    Vec2(x, y)
  }

  lemma TilingFacts(base: real, aspect: real, x: real, y: real)
    requires aspect > 0.0
    requires x == base * (if aspect > 1.0 then aspect else 1.0)
    requires y == base * (if aspect < 1.0 then 1.0 / aspect else 1.0)
    ensures x == y * aspect
    ensures base > 0.0 ==> x >= base && y >= base
  {
    if aspect < 1.0 {
      var inv := 1.0 / aspect;
      assert inv * aspect == 1.0;
      assert y * aspect == base * (inv * aspect);
      if base > 0.0 {
        assert inv > 1.0;
        ScaleUp(base, inv);
      }
    } else if aspect > 1.0 {
      if base > 0.0 {
        ScaleUp(base, aspect);
      }
    }
  }

  lemma ScaleUp(base: real, k: real)
    requires base > 0.0 && k >= 1.0
    ensures base * k >= base
  {
    assert base * k - base == base * (k - 1.0);
    NonNegativeProduct(base, k - 1.0);
  }

  /** The crop window on one axis, given its scale and the offset drawn for
      it: a window no wider than the image lies inside it; a wider one covers
      the whole axis and hangs over its left (or top) edge. */
  ghost predicate CropWindow(offset: real, scale: real)
  {
    (scale <= 1.0 ==> 0.0 <= offset && offset + scale <= 1.0) &&
    (scale > 1.0 ==> offset < 0.0 && offset + scale >= 1.0)
  }

  /** The crop offset the mask pass draws for a window of scale `scale`:
      `random(0, 1 - scale)`. */
  function CropOffset(u: Unit, scale: real): (o: real)
    ensures CropWindow(o, scale)
  {
    Random(u, 0.0, 1.0 - scale)
  }

  /** The whole parameter computation of the mask pass for a target of
      aspect ratio `aspect`, cutting from image `img` with profile `profile`. */
  function MaskUniformsFor(
    aspect: real, img: Image, profile: CollageProfile, d: MaskDraws,
    tearRatio: real, shapeNoiseScale: real, detailTearRatio: real, useDetailNoise: bool): (m: MaskUniforms)
    requires aspect > 0.0
    ensures m.mainTexture == img
    ensures Min(profile.minRatio, profile.maxRatio) <= m.drawSizeRatio <= Max(profile.minRatio, profile.maxRatio)
    ensures profile.minRatio == profile.maxRatio ==> m.drawSizeRatio == profile.minRatio
    ensures m.cropScale == Vec2(aspect * m.drawSizeRatio, m.drawSizeRatio)
    ensures CropWindow(m.cropOffset.x, m.cropScale.x) && CropWindow(m.cropOffset.y, m.cropScale.y)
    ensures -1.0 <= m.noiseOffset.x < 1.0 && -1.0 <= m.noiseOffset.y < 1.0
    ensures -1.0 <= m.detailNoiseOffset.x < 1.0 && -1.0 <= m.detailNoiseOffset.y < 1.0
    ensures m.noiseScale == AspectTiling(shapeNoiseScale, aspect)
    ensures m.detailNoiseScale == AspectTiling(BaseDetailScale, aspect)
    ensures m.tearRatio == tearRatio && m.detailTearRatio == detailTearRatio
    ensures m.useDetailNoise == (if useDetailNoise then 1.0 else 0.0)
  {
    var r := Random(d.ratio, profile.minRatio, profile.maxRatio);
    var scale := Vec2(aspect * r, 1.0 * r);
    MaskUniforms(
      img, r,
      Vec2(CropOffset(d.cropX, scale.x), CropOffset(d.cropY, scale.y)),
      scale,
      if useDetailNoise then 1.0 else 0.0,
      tearRatio, detailTearRatio,
      Vec2(Random(d.noiseX, -1.0, 1.0), Random(d.noiseY, -1.0, 1.0)),
      AspectTiling(shapeNoiseScale, aspect),
      Vec2(Random(d.detailX, -1.0, 1.0), Random(d.detailY, -1.0, 1.0)),
      AspectTiling(BaseDetailScale, aspect))
  }

  /** With a profile inside (0, 1] and a piece no wider than the crop allows
      (`aspect * maxRatio <= 1`), the crop rectangle never leaves the source
      image: `0 <= offset` and `offset + scale <= 1` on both axes. */
  lemma CropInsideImage(
    aspect: real, img: Image, profile: CollageProfile, d: MaskDraws,
    tearRatio: real, shapeNoiseScale: real, detailTearRatio: real, useDetailNoise: bool)
    requires aspect > 0.0
    requires 0.0 < profile.minRatio <= profile.maxRatio <= 1.0
    requires aspect * profile.maxRatio <= 1.0
    ensures var m := MaskUniformsFor(aspect, img, profile, d, tearRatio, shapeNoiseScale, detailTearRatio, useDetailNoise);
      0.0 <= m.cropOffset.x && m.cropOffset.x + m.cropScale.x <= 1.0 &&
      0.0 <= m.cropOffset.y && m.cropOffset.y + m.cropScale.y <= 1.0
  {
    var m := MaskUniformsFor(aspect, img, profile, d, tearRatio, shapeNoiseScale, detailTearRatio, useDetailNoise);
    var r := m.drawSizeRatio;
    assert aspect * profile.maxRatio - aspect * r == aspect * (profile.maxRatio - r);
    NonNegativeProduct(aspect, profile.maxRatio - r);
    assert m.cropScale.x <= 1.0;
  }

  /** Nothing bounds the crop width by 1: a piece twice as wide as it is tall
      cut with ratio 0.6 asks for a window 1.2 image-widths wide, and its
      offset is then negative, whatever is drawn. */
  lemma WidePieceOverhangs(img: Image, d: MaskDraws)
    ensures var m := MaskUniformsFor(2.0, img, CollageProfile(0.6, 0.6), d, 0.2, 0.1, 0.5, true);
      m.cropScale.x == 1.2 && m.cropOffset.x < 0.0
  {
    var m := MaskUniformsFor(2.0, img, CollageProfile(0.6, 0.6), d, 0.2, 0.1, 0.5, true);
    assert m.drawSizeRatio == 0.6;
  }
}
