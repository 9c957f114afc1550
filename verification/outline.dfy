/** The CPU-side arithmetic of the blur-and-threshold outline pass and the
    persistent outline settings it reads. */
module OutlinePass {
  import opened Sampling
  import opened Vectors

  /** The collager's persistent outline settings. `enabled` is kept but no
      pass consults it. */
  datatype OutlineSettings = OutlineSettings(thickness: real, enabled: bool, quality: real, noiseScale: real)

  /** Thickness 10 pixels, outline on, quality 1, noise scale 1.2. */
  const DefaultSettings: OutlineSettings := OutlineSettings(10.0, true, 1.0, 1.2)

  /** The two values the threshold pass draws for its noise offset. */
  datatype OutlineDraws = OutlineDraws(noiseX: Unit, noiseY: Unit)

  /** What the three shader passes of the outline are given: the size of the
      half-resolution blur buffers, the blur size and quality of the
      horizontal and vertical passes, and the threshold pass's parameters. */
  datatype OutlineUniforms = OutlineUniforms(
    blurWidth: int,
    blurHeight: int,
    horizontalBlurSize: real,
    verticalBlurSize: real,
    blurQuality: real,
    outlineColor: Rgb,
    baseThreshold: real,
    noiseThreshold: real,
    edgeSharpness: real,
    noiseOffset: Vec2,
    noiseScale: Vec2)

  /** `ceil(n * 0.5)` on a whole number of pixels. */
  function HalfCeil(n: int): (m: int)
    ensures n <= 2 * m <= n + 1
  {
    (n + 1) / 2
  }

  /** The blur radius, in pixels of the half-resolution blur buffer, for an
      outline `thickness` pixels wide at full resolution. */
  function BlurSize(thickness: real): (s: real)
    ensures 4.0 * s == thickness
  {
    thickness * 0.5 * 0.5
  }

  /** The parameters of the outline pass that writes a target of size
      `targetWidth` x `targetHeight`. */
  function OutlineUniformsFor(targetWidth: int, targetHeight: int, s: OutlineSettings, color: Rgba, d: OutlineDraws): (u: OutlineUniforms)
    ensures u.blurWidth == HalfCeil(targetWidth) && u.blurHeight == HalfCeil(targetHeight)
    ensures u.horizontalBlurSize == u.verticalBlurSize == s.thickness / 4.0
    ensures u.blurQuality == s.quality
    ensures u.outlineColor == Rgb(color.r, color.g, color.b)
    ensures u.baseThreshold == 0.1 && u.noiseThreshold == 0.6 && u.edgeSharpness == 0.96
    ensures -100.0 <= u.noiseOffset.x < 100.0 && -100.0 <= u.noiseOffset.y < 100.0
    ensures u.noiseScale == Vec2(s.noiseScale, s.noiseScale)
  {
    OutlineUniforms(
      HalfCeil(targetWidth), HalfCeil(targetHeight),
      BlurSize(s.thickness), BlurSize(s.thickness), s.quality,
      RgbOf(color),
      0.1, 0.6, 0.96,
      Vec2(Random(d.noiseX, -100.0, 100.0), Random(d.noiseY, -100.0, 100.0)),
      Vec2(s.noiseScale, s.noiseScale))
  }

  /** The outline pass does not depend on whether the outline is switched
      on: `noOutline` has no effect on what is drawn. */
  lemma OutlineIgnoresEnabled(targetWidth: int, targetHeight: int, s: OutlineSettings, color: Rgba, d: OutlineDraws)
    ensures OutlineUniformsFor(targetWidth, targetHeight, s, color, d)
         == OutlineUniformsFor(targetWidth, targetHeight, s.(enabled := !s.enabled), color, d)
  {}
}
