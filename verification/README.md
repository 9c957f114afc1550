# Collager: a model of the collage pipeline's CPU-side bookkeeping

`Collager` (in `Collager.js`) cuts torn-paper pieces out of registered
photographs and composites them onto a p5 canvas. Each `drawImage` call
resizes a piece buffer, runs a mask shader that crops the photo and tears its
edge with two noise textures, blits the sprite into a ping-pong framebuffer
pair, and runs an outline pass (blur + threshold), a shadow pass and a
colour-lookup pass, swapping the pair's source and target roles after each
pass. It then blits the result to the canvas and clears its buffers.

This project models everything the class does on the CPU around those
shader passes:

- the ping-pong state machine: `swapState`, the two backing buffers and
  which of them is source and target (module `PingPong` for the pure roles,
  `Collage.Collager.FboSwap` for the fields);
- the image registry: two parallel lists of images and
  `CollageProfile{minRatio, maxRatio}` (module `Registry`, methods
  `AddImage` and `ClearImages`);
- the persistent outline settings and their four setters;
- the parameter arithmetic of the mask pass: draw-size ratio, crop scale and
  offset in UV space, and aspect-corrected noise tiling (module `MaskPass`);
- the parameter arithmetic of the outline pass: half-size blur buffers, blur
  size and threshold-pass parameters (module `OutlinePass`);
- the sequence of `drawImage`: index choice, resize, mask pass, the three
  passes with their swaps, the final blit, and `clearBuffers`
  (`Collage.Collager.DrawImage`).

A framebuffer (module `Framebuffers`) is an object with a `width`, a `height`
and `contents`. The contents are a `Layer`: not pixels, but the chain of
passes that produced them (`Blank`, a torn piece of an image, a blit over
what was there, a blur, an outline, a shadow, a colour grade). A shader pass
leaves in its target the layer it makes from what its source held, and does
not touch its source. So the order of the passes, and which buffer each one
reads and writes, appear in the contracts. The parameters the CPU computes for the mask
and outline shaders are returned as values (`MaskUniforms`,
`OutlineUniforms`), so their properties can be stated.

Randomness: every `random(a, b)` call is given a unit draw `u` in [0, 1) as a
parameter. The draw is mapped the way p5's `random` does it: the two bounds
are put in order first, then the value is `lo + u * (hi - lo)`
(`Sampling.Random`). The order in which `drawImage` draws is kept in the
records `MaskDraws` and `OutlineDraws`.

The code does less checking than one might expect, and the model keeps
that:

- The crop window is not clamped. The crop width is `aspect * ratio` and
  can exceed 1 for a wide piece. The offset is then drawn from
  `[1 - scale, 0)`, so the window covers the whole image axis and overhangs
  its edge. `offset + scale <= 1` holds only when the scale is at most 1
  (`MaskPass.CropWindow`, `MaskPass.WidePieceOverhangs`).
- `addImage` does not validate the ratios.
- With an empty registry, or an explicit index out of range, `drawImage` does
  not reject the call up front. It resizes the piece buffer, then throws when
  it reads `minRatio` of the missing profile. This is modelled as the error
  result `UndefinedProfile`, with the resized piece buffer as the only
  change.
- `clearBuffers` clears the piece buffer and the ping-pong pair, but not the
  two blur buffers.
- `noOutline` sets `_doOutline`, but `drawImage` never reads it: the outline
  pass always runs.

## Model

| member | source | states |
|---|---|---|
| `Sampling.Random` | Collager.js:209-218 | the drawn value lies between the two bounds in either order, below the larger one unless the bounds are equal, in which case it is that bound |
| `Sampling.RandomIndex` | Collager.js:82-84 | `floor(random(0, n))` lies in `[0, n)` for a non-empty registry and is 0 for an empty one |
| `Collage.ChosenIndex` | Collager.js:81-84 | an explicit index is used unchanged; -1 picks an index in `[0, len)` when the registry is non-empty, and 0 when it is empty |
| `Collage.ChosenIndexDefined` | Collager.js:81-84 | with -1 the chosen index names an entry exactly when the registry is non-empty; an explicit index does exactly when it is in range |
| `PingPong.Target` | Collager.js:47-58 | the target slot is never the source slot, and it is the slot that becomes source after a swap |
| `PingPong.SwapParity` | Collager.js:47-58 | after `n` swaps the swap state depends only on the parity of `n` |
| `PingPong.SwapTwice` | Collager.js:47-58 | two consecutive swaps restore the original source and target |
| `PingPong.ThreeSwaps` | Collager.js:99-109 | three swaps negate the swap state and exchange the source and target roles |
| `PingPong.ThreePasses` | Collager.js:99-109 | the three passes of a piece run A→B, B→A, A→B, or the mirror image |
| `PingPong.PassesChain` | Collager.js:99-112 | no pass reads the buffer it writes; every pass reads what the previous pass wrote; after the last swap the source is the buffer the last pass wrote, which is the one blitted to the canvas |
| `Registry.Entries` | Collager.js:4-5 | the two parallel lists read as one list of entries, with entry `i` pairing image `i` and profile `i` |
| `Registry.EntriesAppend` | Collager.js:41-45 | appending one image and one profile appends exactly one entry and keeps the earlier entries in place |
| `MaskPass.AspectRatio` | Collager.js:197-200 | the aspect ratio is positive, times the height gives the width, and exceeds 1 exactly when the target is wider than tall |
| `MaskPass.AspectTiling` | Collager.js:227-241 | at most one axis is stretched; `tilingX = tilingY * aspect`, so noise texels stay square; with a positive base both tilings are at least the base |
| `MaskPass.CropOffset` | Collager.js:217-218 | a crop window no wider than the image lies inside `[0, 1]`; a wider one has a negative offset and covers the whole axis |
| `MaskPass.MaskUniformsFor` | Collager.js:197-241 | the draw ratio lies within the profile's bounds and is exactly the bound when the bounds are equal; crop scale is `(aspect·r, r)`; both crop windows obey `CropWindow`; noise offsets lie in `[-1, 1)`; shape and detail tilings are the aspect tiling of the shape-noise scale and of 0.2; tear ratios and the detail flag are passed through |
| `MaskPass.CropInsideImage` | Collager.js:209-218 | with `0 < minRatio <= maxRatio <= 1` and `aspect·maxRatio <= 1`, `0 <= offset` and `offset + scale <= 1` hold on both axes |
| `MaskPass.WidePieceOverhangs` | Collager.js:211-217 | a piece with aspect 2 and ratio 0.6 gets crop width 1.2 and a negative crop offset, whatever is drawn |
| `OutlinePass.HalfCeil` | Collager.js:136 | the blur buffer side is `ceil(n/2)`: twice it is `n` or `n + 1` |
| `OutlinePass.BlurSize` | Collager.js:146 | the blur size is a quarter of the outline thickness |
| `OutlinePass.OutlineUniformsFor` | Collager.js:131-192 | the blur buffers are `ceil(w/2) × ceil(h/2)` of the target; both blur passes use thickness/4 and the quality level; the outline colour is the RGB part of the colour given; thresholds are 0.1, 0.6 and 0.96; the noise offset lies in `[-100, 100)²`; the noise scale is the setting on both axes |
| `OutlinePass.OutlineIgnoresEnabled` | Collager.js:99-101 | the outline pass computes the same parameters whether or not the outline is switched on |
| `Framebuffers.Framebuffer.constructor` | Collager.js:7-12 | a new framebuffer has the requested size and is transparent (`Blank`) |
| `Framebuffers.Framebuffer.Resize` | Collager.js:87 | after a resize the buffer has exactly the requested size, and its contents are gone (`Blank`) |
| `Framebuffers.Framebuffer.Clear` | Collager.js:60-72 | clearing leaves the buffer `Blank` and its size unchanged |
| `Framebuffers.Framebuffer.Draw` | Collager.js:91-97 | drawing into a buffer leaves exactly the drawn layer in it and its size unchanged |
| `Collage.Collager.constructor` | Collager.js:2-23 | the registry is empty; `swapState` holds, with A as source and B as target; three distinct canvas-sized transparent buffers exist; no blur buffers exist yet; settings are thickness 10, outline on, quality 1, noise scale 1.2 |
| `Collage.Collager.AddImage` | Collager.js:41-45 | exactly one image and its profile are appended; the lists stay the same length; the registry gains exactly the new entry at its end |
| `Collage.Collager.ClearImages` | Collager.js:74-77 | both lists become empty; only the two list fields may change, so no buffer and no setting is touched |
| `Collage.Collager.FboSwap` | Collager.js:47-58 | `swapState` is negated; source and target are exchanged; source is A and target is B exactly when `swapState` holds; source and target stay distinct |
| `Collage.Collager.ClearBuffers` | Collager.js:60-72 | the piece buffer, A and B become `Blank`; the blur buffers keep their contents |
| `Collage.Collager.OutlineWeight` | Collager.js:321-324 | sets the thickness and switches the outline on; the other settings are unchanged |
| `Collage.Collager.OutlineQuality` | Collager.js:326-328 | changes only the quality level |
| `Collage.Collager.OutlineNoiseScale` | Collager.js:330-332 | changes only the noise scale |
| `Collage.Collager.NoOutline` | Collager.js:334-336 | only switches the outline off |
| `Collage.Collager.MaskedImagePass` | Collager.js:194-279 | succeeds exactly when the index names a profile, and then returns `MaskUniformsFor` of the target's aspect and that index's image and profile, and leaves that image's torn piece drawn over what the target held; otherwise it fails with `UndefinedProfile` and leaves the target untouched |
| `Collage.Collager.BlurOutlinePass` | Collager.js:131-192 | the blur buffers are created on first use and reused after; the first is resized to `ceil(w/2) × ceil(h/2)` of the target and the second matches it; the first holds the horizontal blur of the source, the second the vertical blur of the first, and the target the source outlined from the second; the source is unchanged; returns `OutlineUniformsFor` of the target size and the current settings |
| `Collage.Collager.ShadowPass` | Collager.js:281-295 | the target holds the source with its shadow, and the source is unchanged |
| `Collage.Collager.LutPass` | Collager.js:297-307 | the target holds the source colour graded, and the source is unchanged |
| `Collage.Collager.EffectPasses` | Collager.js:99-109 | outline, shadow and colour-grade passes, each followed by one swap: `swapState` is negated, the roles are exchanged, the passes' (source, target) buffers are those of `PingPong.Passes` for three passes; the first target ends holding the colour grade of the shadow of the outline of what the first source held, the first source holds that shadow, and the blur buffers, created on first use and reused after, hold the two blurs of the first source and are sized from the target |
| `Collage.Collager.DrawImage` | Collager.js:79-114 | succeeds exactly when the chosen index names an entry. On success: the mask parameters come from that entry with tear ratio 0.2, shape-noise scale 0.1, detail-tear ratio 0.5 and detail noise on; the outline parameters come from the settings on entry; the roles are exchanged after three swaps; the presented buffer is the source after the last swap, and what it showed is that entry's torn piece, blitted with its top-left corner at `(x + w/2, y + h/2)` and the given rotation about that corner over what the source held, then outlined, shadowed and colour graded in that order; the piece buffer is `w × h`; the piece buffer, A and B are then `Blank`; the blur buffers are created on the first call and the same two are reused after, and keep the two blurs of the blitted source; the registry and settings are unchanged. On failure: only the piece buffer was resized and is `Blank`; the roles and the ping-pong buffers are untouched |

## Left out

- Loading shaders, noise textures and the lookup table (`initShaders`) is
  file I/O. The image that `addImage` loads is an opaque `Image` handle given
  to `AddImage`.
- The shader programs, their uniform binding and the draw calls (`shader`,
  `setUniform`, `rect`, `image`, `translate`, `rotate`) run on the GPU, and
  their fragment code is not part of this model. A pass records only which
  pass produced its target's contents and from what, as a `Layer`.
- The constant parameters of the shadow pass (offset, radius, colour,
  quality) and of the colour-grade pass (lookup texture, intensity) only
  reach the GPU, so they are not modelled.
- `circleOutlinePass` (Collager.js:117-128) is never called by
  `drawImage`, so it is not modelled.
- `setTextureWrap` (Collager.js:309-319) reaches into the renderer's
  internals, so it is not modelled.
- The random generator itself is not modelled. Each draw is a parameter in
  `[0, 1)`.
- Floating point: ratios, offsets and tilings are exact reals.
- `radians(_rotateDegree)` needs π. The placement records the angle in
  degrees.
- The blit to the main canvas is recorded as the buffer presented and the
  layer it held; the canvas itself is not a field of the collager.
- sketch.js is a p5 setup script with no collage logic.
- Collage.Collager.DrawImage: requires `w > 0` and `h > 0`, and takes whole
  pixel sizes. With a zero side the code divides by zero when it computes the
  aspect ratio or its inverse.
- Collage.Collager.MaskedImagePass: requires a target with positive sides,
  for the same reason.
- Collage.Collager.BlurOutlinePass: requires source and target to be two
  different buffers among the piece buffer, A and B. A buffer bound as both
  the texture read and the target written is a feedback loop that WebGL
  refuses.
- Collage.Collager.ShadowPass: requires source and target to differ, for the
  same reason.
- Collage.Collager.LutPass: requires source and target to differ, for the
  same reason.
- Framebuffers.Framebuffer.Resize: assumes that a resize discards the
  contents, as a reallocation does. p5's behaviour when the size does not
  change is not modelled.
