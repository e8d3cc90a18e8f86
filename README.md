# wgpu_glyph core, modelled in Dafny

This project models the core of `wgpu_glyph`, a text renderer for the `wgpu`
graphics API. The core has three parts.

- **The glyph atlas** (`AtlasCache`, `cache.dfy`). A single-channel texture
  receives glyph bitmaps. A bitmap arrives tightly packed and is repacked
  into a zero-filled staging vector whose rows start at a stride that is a
  multiple of 256 bytes. One buffer-to-texture copy is then recorded. The
  row-copy loop works in place on an `array<bv8>`. It is proved equal to a
  specification function (`PaddedRows`), and lemmas state what every byte of
  that function holds. The stride is computed as the code computes it, from
  the patch height, so the model includes the panic this causes for patches
  wider than that stride (see Findings).
- **Glyph to instance conversion and the pipeline's resources**
  (`Instances`, `instance.dfy`; `Pipelines`, `pipeline.dfy`).
  - A positioned glyph is mapped into clip space and clipped against its
    section bounds one side at a time. Each clip rescales the matching
    texture edge, so texel density is preserved.
  - The `Pipeline` class owns the transform buffer, the sampler, the atlas,
    the bind group over them and the instance buffer.
  - Resizing the atlas replaces the cache and rebuilds the bind group from
    the unchanged fields.
- **The brush's retry loop** (`Brush`, `brush.dfy`; `TextExtra`, `text.dfy`).
  - `process_queued` asks the layout engine to process the queue and
    forwards each atlas patch, with its coordinates cast to u16.
  - When the engine reports that the atlas is too small, the loop picks a
    new size (capped at 2048 only under a specific condition), resizes the
    pipeline's atlas and the engine's texture together, and retries.
  - When the engine succeeds, the loop uploads the new instances, if any.
  - The draw entry points run this loop and then record a draw, with or
    without a scissor region.
  - `TextExtra` holds the per-text extra data, its equality, its default and
    the three builder setters.

GPU objects are classes, and object identity stands for the GPU resource. A
newly created resource is a `fresh` object. A command encoder is a class
whose `commands` field records, in order, what was recorded into it. The
layout engine is a parameter: a function from the current atlas size and the
attempt number to the patches and result of that attempt. Coordinates and
colours are `real`.

Three properties of the code are worth stating up front:

- `NewCacheSize` adopts the engine's suggestion verbatim unless the cap
  applies. So the atlas can shrink (`Brush.SizeCanShrink`), and once it is
  2048x2048 it can exceed 2048 (`Brush.NoCapAtFullSize`).
- The staging stride is derived from the patch height
  (`src/pipeline/cache.rs:46`), not from its width.
- `src/pipeline.rs` allocates an instance buffer for 50 000 instances when
  the pipeline is created. Resizing the atlas keeps that buffer.

## Model

| member | source | states |
|---|---|---|
| AtlasCache.MultipleOf256 | src/pipeline/cache.rs:6-12 | the result is divisible by 256 and lies in `value .. value + 256` |
| AtlasCache.MultipleOf256Least | src/pipeline/cache.rs:6-12 | no multiple of 256 that covers `value` is smaller than the result |
| AtlasCache.MultipleOf256Idempotent | src/pipeline/cache.rs:7-8 | a multiple of 256 is returned unchanged, so rounding twice equals rounding once |
| AtlasCache.Stride | src/pipeline/cache.rs:46 | the stride is a multiple of 256 in `height .. height + 256`, that is it covers the patch height |
| AtlasCache.PaddedRows | src/pipeline/cache.rs:50 | the padded rows of `rows` source rows take exactly `rows * stride` bytes |
| AtlasCache.PaddedRowsPrefix | src/pipeline/cache.rs:53-56 | the first `k` padded rows are a prefix of the first `rows` |
| AtlasCache.PaddedRowAt | src/pipeline/cache.rs:50-56 | byte `j` of padded row `r` is `data[r*width + j]` when `j < width` and zero otherwise |
| AtlasCache.Repacked | src/pipeline/cache.rs:48-58 | the row copy panics exactly under the out-of-range condition; otherwise the staging vector holds `height * stride` bytes |
| AtlasCache.StageSpec | src/pipeline/cache.rs:44-61 | a width equal to the stride uploads the caller's data unchanged; otherwise a staging vector that is built holds `height * stride` bytes |
| AtlasCache.StageSpecPanics | src/pipeline/cache.rs:48-61 | staging panics exactly when the width differs from the stride and a row slice is out of range; a width equal to the stride uploads the caller's data unchanged |
| AtlasCache.StageSpecRepacks | src/pipeline/cache.rs:48-56 | without a panic and with width != stride, the staging vector is the source rows padded with zeros to the stride, and the width fits the stride |
| AtlasCache.StageSpecPanicsOnWidePatch | src/pipeline/cache.rs:46-55 | for a patch of exactly `width * height` bytes, staging panics iff the width exceeds the stride derived from the height |
| AtlasCache.PanicCondition | src/pipeline/cache.rs:54-55 | a slice of some row that is out of range implies the panic condition |
| AtlasCache.RepackStep | src/pipeline/cache.rs:53-56 | copying row `row` extends the padded prefix by one row and leaves the rest zero |
| AtlasCache.CopyFromSlice | src/pipeline/cache.rs:54-55 | `copy_from_slice` overwrites exactly `width` bytes at `at` with the source bytes from `from` |
| AtlasCache.RowsCopiedFirst | src/pipeline/cache.rs:50 | the zero-filled vector of `stride * height` bytes is the state before the first row |
| AtlasCache.RowsCopiedLast | src/pipeline/cache.rs:53-58 | after the last row the vector is the repacked patch |
| AtlasCache.CopyPaddedRow | src/pipeline/cache.rs:54-55 | one loop pass either reports the panic condition or copies the row, keeping the loop invariant for the next row |
| AtlasCache.RepackRows | src/pipeline/cache.rs:48-58 | the row loop over an array produces the repacked patch, or the panic |
| AtlasCache.StagePatch | src/pipeline/cache.rs:44-61 | the staging buffer is the caller's data when width == stride and the repacked rows otherwise, with the stride from the height |
| AtlasCache.Cache.constructor | src/pipeline/cache.rs:15-34 | a new texture of the requested width and height and a view of it |
| AtlasCache.Cache.Update | src/pipeline/cache.rs:36-86 | records one copy of the staging buffer with offset 0, `bytes_per_row` = the stride, `rows_per_image` = height, into this texture at `(offset[0], offset[1], 0)` with extent `(size[0], size[1], 1)` |
| AtlasCache.IntendedStride | src/pipeline/cache.rs:46 | the width-derived stride covers the width and is a multiple of 256 |
| AtlasCache.StageIntended | src/pipeline/cache.rs:44-61 | with the width-derived stride, staging panics only when the data is shorter than `width * height` |
| AtlasCache.StageIntendedRepacks | src/pipeline/cache.rs:48-56 | with the width-derived stride, any patch with enough data is repacked into padded rows |
| AtlasCache.WidePatchPanics | src/pipeline/cache.rs:46-55 | a one-row patch 300 bytes wide panics as written and is staged with the width-derived stride |
| Instances.ToClipMonotonic | src/pipeline.rs:191-211 | the clip-space map `2*(c/screen - 0.5)` preserves order for a positive screen extent |
| Instances.ToClipInverse | src/pipeline.rs:191-211 | the clip-space map `2*(c/screen - 0.5)` is undone by `(x/2 + 0.5) * screen`, so no two pixel coordinates share a clip coordinate |
| Instances.ClipSpaceKeepsOrder | src/pipeline.rs:191-211 | mapping the bounds and the glyph rectangle into clip space keeps and reflects the order of their corners on each axis, for a screen of positive size |
| Instances.ClipMaxX | src/pipeline.rs:214-219 | right edge clamped to the bound, texture min x fixed, texel density kept, no change when inside |
| Instances.ClipMinX | src/pipeline.rs:221-226 | left edge clamped to the bound, texture max x fixed, texel density kept, no change when inside |
| Instances.ClipMaxY | src/pipeline.rs:228-233 | max-y edge clamped to the bound, texture min y fixed, texel density kept, no change when inside |
| Instances.ClipMinY | src/pipeline.rs:235-240 | min-y edge clamped to the bound, texture max y fixed, texel density kept, no change when inside |
| Instances.Clipped | src/pipeline.rs:213-240 | after the four clips each edge is the min or max of the glyph edge and the bound edge |
| Instances.FromVertex | src/pipeline.rs:179-250 | the instance has the clamped rectangle with y corners swapped, depth `z`, and the colour passed through |
| Instances.FromVertexWithinBounds | src/pipeline.rs:214-240 | the emitted rectangle lies within the clip-space bounds on all four sides |
| Instances.ClipsXKeepDensity | src/pipeline.rs:214-226 | the two x clips together keep the texture-to-rectangle width ratio |
| Instances.ClipsYKeepDensity | src/pipeline.rs:228-240 | the two y clips together keep the texture-to-rectangle height ratio |
| Instances.FromVertexKeepsDensity | src/pipeline.rs:213-248 | the emitted texture extent per unit of rectangle extent equals the original's on both axes |
| Instances.ClipsXPlace | src/pipeline.rs:214-226 | after the two x clips each texture x edge sits at the same fraction of the original texture width as the glyph x edge sits in the original glyph width |
| Instances.ClipsYPlace | src/pipeline.rs:228-240 | the two y clips keep that placement along y and leave it along x |
| Instances.FromVertexTexCornersProportional | src/pipeline.rs:213-248 | each emitted texture corner sits at the same fraction of the original texture rectangle as the matching emitted corner sits in the original glyph rectangle, on both axes |
| Instances.FromVertexInsideBounds | src/pipeline.rs:213-248 | a glyph inside its bounds keeps its texture rectangle, and its corners are emitted in the swapped-y layout |
| Instances.ConvertibleWhenWellFormed | src/pipeline.rs:191-240 | a positive screen, a glyph of positive extent and ordered bounds make every clip division defined |
| Instances.UnclippedGlyphExample | src/pipeline.rs:179-250 | a concrete glyph inside its bounds gives the expected clip-space instance |
| Pipelines.IdentityMatrixFixesPoints | src/pipeline.rs:21-26 | the initial transform maps every point to itself |
| Pipelines.Pipeline.constructor | src/pipeline.rs:28-101 | identity transform, sampler with the filter, atlas of the requested size, a bind group over them, and an instance buffer for `Instance::MAX` = 50 000 records of 52 bytes |
| Pipelines.Pipeline.IncreaseCacheSize | src/pipeline.rs:107-122 | a new atlas of exactly the requested size; the bind group is rebuilt over the same transform, sampler and layout and the new view; the instance buffer is kept |
| Pipelines.Pipeline.UpdateCache | src/lib.rs:233-240 | records one patch update with the given offset, size and bytes |
| Pipelines.Pipeline.Upload | src/lib.rs:282-284 | records the upload of exactly the given instances |
| Pipelines.Pipeline.Draw | src/lib.rs:363-370 | records one draw with the target, depth attachment, transform and region |
| TextExtra.DefaultExtra | src/lib.rs:57-64 | the default outline colour is opaque black `[0, 0, 0, 1]` over the layout engine's default extra |
| TextExtra.ExtraEq | src/lib.rs:50-55 | equality holds iff both the inner extra and the outline colour are equal, that is iff the values are equal |
| TextExtra.ExtraEqIsEquivalence | src/lib.rs:50-55 | the equality is reflexive, symmetric and transitive |
| TextExtra.WithColor | src/lib.rs:77-80 | only the fill colour changes |
| TextExtra.WithOutlineColor | src/lib.rs:82-88 | only the outline colour changes |
| TextExtra.WithZ | src/lib.rs:90-93 | only the depth changes |
| TextExtra.SettersCommute | src/lib.rs:75-94 | the setters touch disjoint fields, so any two commute |
| TextExtra.LastSetterWins | src/lib.rs:75-94 | setting a field twice keeps the last value |
| TextExtra.SettersDetermineExtra | src/lib.rs:75-94 | setting all three fields fixes the whole extra |
| Brush.NewCacheSize | src/lib.rs:250-263 | the new size is the suggestion or 2048x2048; a suggestion within 2048 is adopted; an atlas under 2048 on some axis gets a size within 2048x2048; an atlas at 2048 or more on both axes gets the suggestion |
| Brush.GrowsToSuggestion | src/lib.rs:252-263 | 256x256 with suggestion 300x300 becomes 300x300 |
| Brush.SizeCanShrink | src/lib.rs:252-263 | the new size can be smaller than the current one on an axis |
| Brush.NoCapAtFullSize | src/lib.rs:252-263 | once the atlas is 2048x2048, a 4096x4096 suggestion is adopted |
| Brush.AsU16 | src/lib.rs:230-231 | `as u16` keeps the low 16 bits and is exact below 65536 |
| Brush.Forward | src/lib.rs:230-240 | a patch becomes one cache update with its bytes untouched, and its corner and extent reduced modulo 65536 |
| Brush.ForwardAll | src/lib.rs:229-240 | one patch update per patch, in order |
| Brush.ForwardExact | src/lib.rs:229-240 | a patch within 16-bit range is forwarded with its exact corner, width, height and bytes |
| Brush.Uploads | src/lib.rs:281-286 | at most one command follows the loop, and it uploads exactly the vertices of a `Draw`; a `ReDraw` records nothing |
| Brush.Retry | src/lib.rs:227-286 | a run makes at most `fuel` resizes, and it runs out of attempts exactly when it made `fuel` of them |
| Brush.RetryUploads | src/lib.rs:281-286 | the trace uploads exactly the vertices of a final `Draw`, once, as its last command; a `ReDraw` or a run cut short uploads nothing |
| Brush.RetryFinishesOnOk | src/lib.rs:245-246 | the loop finishes only with the `Ok` action the engine returned at the final size, after one attempt per resize, and makes at most `fuel` resizes |
| Brush.RetryEndsAtLastResize | src/lib.rs:275-276 | the final atlas size is the last size chosen, or the initial size if none was chosen |
| Brush.RetryResizesCapped | src/lib.rs:250-276 | every size chosen stays within 2048x2048 when the size before it was under 2048 on some axis |
| Brush.CappedChainFromSmallAtlas | src/lib.rs:250-263 | starting within 2048 and staying under 2048 on some axis, every size chosen stays within 2048x2048 |
| Brush.RecoveryScenario | src/lib.rs:227-286 | a 256x256 atlas reported too small with suggestion 300x300 is resized once to 300x300, then the second attempt's patches and instances are recorded |
| Brush.GlyphBrush.constructor | src/lib.rs:290-311 | the pipeline's atlas starts at the layout engine's texture size |
| Brush.GlyphBrush.ForwardPatches | src/lib.rs:229-240 | records every patch's update, in order |
| Brush.GlyphBrush.ProcessQueued | src/lib.rs:217-287 | records exactly the run's trace (patches, then the upload of a `Draw`); the engine's texture size is the run's final size; the pipeline's atlas always has that size; transform, sampler, bind group layout and instance buffer are unchanged; without a resize the atlas and bind group are the same objects, and after a resize both are fresh |
| Brush.GlyphBrush.DrawQueuedWithTransform | src/lib.rs:354-373 | the queue is processed first, then one draw with no region is recorded; transform, sampler, bind group layout and instance buffer are unchanged; the atlas and bind group are kept without a resize and fresh after one (also the depth variant at src/lib.rs:478-499) |
| Brush.GlyphBrush.DrawQueuedWithTransformAndScissoring | src/lib.rs:387-407 | the queue is processed first, then one draw with `Some(region)` is recorded; transform, sampler, bind group layout and instance buffer are unchanged; the atlas and bind group are kept without a resize and fresh after one (also the depth variant at src/lib.rs:513-536) |

## Left out

- Brush.GlyphBrush.ProcessQueued: the original retries without bound. The model stops after `fuel` attempts and reports `OutOfFuel`, so a layout engine that never succeeds is not modelled.
- Brush.GlyphBrush.DrawQueuedWithTransform: the original always returns `Ok(())`. The model returns `false` only when the attempts ran out, where the original would still be looping. The same holds for `DrawQueuedWithTransformAndScissoring`.
- Brush.AsU16: u32 rectangle coordinates are unbounded naturals here. Only the truncation to u16 is modelled.
- AtlasCache.Cache.Update: a panicking row copy is a precondition of the method. The panic itself is modelled in `StagePatch`, `RepackRows` and `StageSpec` as `Panicked`.
- AtlasCache.Cache.Update: the staging buffer and the texture write are recorded as a copy command. What the GPU then writes into the texture is not modelled.
- f32 arithmetic: clip coordinates, colours and the transform are `real`. Rounding, NaN and infinity are not modelled, and neither is f32 equality, where NaN differs from itself. The `Convertible` precondition of `FromVertex` rules out the divisions by zero that would yield NaN.
- `Pipeline::update_cache`, `Pipeline::upload` and the `draw` that `src/lib.rs` calls are not part of this model. The pipeline's `draw` and `redraw` shown in `src/pipeline.rs` have empty bodies. These three calls are modelled as recording one command each.
- Pipelines.Pipeline.Upload: it is modelled as recording the upload and changing nothing else. The body of `Pipeline::upload` is not part of this model, so the model does not capture a reallocation of the instance buffer when a frame has more instances than it holds. The instance-buffer clauses of `ProcessQueued` and the two draw methods rest on this.
- `Pipeline::cache()`: it only hands out a shared reference to the atlas.
- The layout engine is not part of this model. This covers text layout, rasterisation, atlas packing and the conversion callback it runs with `Instance::from_vertex`. The engine is a parameter that returns patches, finished instances and a result. The default of its per-text extra (opaque black, depth 0) is taken as a constant.
- Wgpu object creation: texture formats and usages, sampler address modes, shader and render-pipeline state, multisampling, the render format and the depth-stencil state. GPU objects keep only their dimensions and references.
- `orthographic_projection` and the `draw_queued` functions built on it: they are a float matrix computation.
- `Extra`'s `Hash` via `OrderedFloat`: float hashing.
- Logging of the resize warning.
- The queueing, caching and font methods of `GlyphBrush`: they only delegate to the layout engine.
- The builder and the `Region` float conversion. `Region` is a datatype of four naturals.

## Findings

| source | as written | input that shows it | evidently intended | confidence | as-written member | corrected member |
|---|---|---|---|---|---|---|
| src/pipeline/cache.rs:46 | the staging stride and `bytes_per_row` are `multiple_of_256(height)` | a patch of size (300, 1) with 300 bytes: the stride is 256, the staging vector has 256 bytes, and the copy of row 0 into bytes 0..300 is out of range | the stride is `multiple_of_256(width)`, so every row fits and rows start on 256-byte boundaries | high; not executed | AtlasCache.WidePatchPanics | AtlasCache.StageIntendedRepacks |

The recorded copy in `AtlasCache.Cache.Update` keeps the code as written.
`StageIntended` sits beside it with its property proved.
