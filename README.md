# Signed-distance-field sandbox renderer: CPU-side state, verified

This project models, in Dafny, the CPU side of a small wgpu renderer for a 2-D
world held as a signed distance field. The GPU side (pipelines, shaders, the
texels themselves) is abstracted away. What remains is the bookkeeping the
passes depend on:

- the sub-pixel jitter sequence (a radical-inverse loop and a 16-entry
  table), the jitter index and the choice of jitter per upsampler;
- the two ping-pong stores: the distance-field textures edited by `add`
  and `subtract`, and the history textures of the temporal anti-aliasing
  (TAA) upsampler, which are reallocated lazily after a resize;
- the plain (BLIT) upsampler's conditional rebind, and the switch between
  the two upsamplers;
- the rotating blue-noise dither tile of the light-map pass;
- the light-map resolution clamp of the older renderer variant;
- the packed records the shaders read: shapes (tag, colour word,
  metallic/roughness word, geometry), lights, and flattened BVH nodes.

Textures are records of an extent and a generation number. A bind group is
the texture record(s) it was built from. The verifier can therefore tell
whether a pass reads or shows the current allocation or a replaced one.

Modules, one per source file:
- `Gpu` holds the shared records.
- `Cyclic` covers the rotating counters.
- `Halton`, `Bvh` and `Renderer` cover src/renderer/mod.rs.
- `Sdf` covers src/sdf.rs.
- `Taa` covers src/renderer/taa.rs.
- `Blit` covers src/renderer/blit_sampler.rs.
- `LightMap` covers src/renderer/light_map.rs.
- `LegacyRenderer` covers src/renderer.rs.
- `Shape` covers src/renderer/shape.rs.
- `Light` covers src/renderer/light.rs.

Where the source mutates state, the model is a class whose methods state
the fields they change and the fields they keep. Pure code becomes
functions and lemmas.

## Model

| member | source | states |
|---|---|---|
| `Cyclic.Next` | src/renderer/mod.rs:798 | one advance of a counter stays below the period, and moves to the next value or wraps from the last value to 0 |
| `Cyclic.IterateIsOffset` | src/renderer/light_map.rs:139 | `n` advances from an in-range start land on `(start + n) mod period` |
| `Cyclic.IterateAdds` | src/renderer/mod.rs:798 | `m` advances followed by `k` advances are `m + k` advances |
| `Cyclic.ReturnsAfterPeriod` | src/renderer/light_map.rs:139 | after exactly `period` advances (64 for the blue-noise tile, 16 for the jitter) the counter is back at its start |
| `Cyclic.NotBeforePeriod` | src/renderer/light_map.rs:139 | for any advance count strictly between 0 and the period, the counter is elsewhere |
| `Cyclic.DistinctWithinPeriod` | src/renderer/mod.rs:798 | frames fewer than a period apart use different counter values |
| `Cyclic.PingPong` | src/sdf.rs:274 | a two-slot index flips on each advance, and two advances (two edits of any kind, two TAA frames) restore it |
| `Halton.Halton` | src/renderer/mod.rs:26-38 | the digit loop, which terminates for base ≥ 2, returns the base-`b` radical inverse of the index |
| `Halton.RadicalInverseBounds` | src/renderer/mod.rs:31-36 | the radical inverse lies in [0, 1) |
| `Halton.RadicalInverseZeroIff` | src/renderer/mod.rs:31-36 | the radical inverse is 0 exactly when the index is 0 |
| `Halton.RadicalInverseInjective` | src/renderer/mod.rs:31-36 | different indices have different radical inverses |
| `Halton.FirstValues` | src/renderer/mod.rs:31-36 | halton(2,1)=1/2, halton(2,2)=1/4, halton(2,3)=3/4, halton(3,1)=1/3, halton(3,2)=2/3, halton(3,3)=1/9 |
| `Halton.BuildJitterSamples` | src/renderer/mod.rs:518-520 | the table has 16 entries, entry `i` being (halton(2,i+1)−0.5, halton(3,i+1)−0.5) |
| `Halton.JitterInsidePixel` | src/renderer/mod.rs:518-520 | every offset lies strictly inside (−0.5, 0.5) on both axes |
| `Halton.JitterDistinct` | src/renderer/mod.rs:518-520 | no two entries share an x or a y offset |
| `Halton.JitterPeriodIsSixteen` | src/renderer/mod.rs:798 | the offsets used frame after frame repeat after 16 frames, and any 16 consecutive frames use 16 different offsets |
| `Bvh.DefaultNode` | src/renderer/mod.rs:247 | the initial node buffer entry has entry and exit 0 |
| `Bvh.AsI32` | src/renderer/mod.rs:724 | a `u32` cast to `i32` keeps its value below 2^31 and loses 2^32 otherwise; it is non-negative exactly below 2^31 |
| `Bvh.WrappingNeg` | src/renderer/mod.rs:724 | negation is exact except at `i32::MIN`, which wraps to itself |
| `Bvh.ToNode` | src/renderer/mod.rs:722-727 | the exit is the `i32` reading of the `u32` exit; below 2^31 a leaf's entry is never positive and an interior entry never negative |
| `Bvh.BoxRecovered` | src/renderer/mod.rs:723-725 | centre + half extent is the box's maximum corner, and centre − half extent its minimum corner |
| `Bvh.LeafEntry` | src/renderer/mod.rs:724 | a leaf entry (`u32::MAX`) with shape `s` < 2^31 becomes `−s`, never positive |
| `Bvh.LinksCopied` | src/renderer/mod.rs:724-726 | other entries and all exits below 2^31 are copied unchanged; an exit of `u32::MAX` becomes −1 |
| `Bvh.LeafZeroMeetsEntryZero` | src/renderer/mod.rs:724 | a leaf holding shape 0 and an interior node with entry 0 store the same entry, because the negation is arithmetic |
| `Bvh.NegationWraps` | src/renderer/mod.rs:724 | the leaf holding shape 2^31 stores `i32::MIN` |
| `Bvh.FlattenNodes` | src/renderer/mod.rs:722-727 | one node per flattened tuple, in order, each built by the mapping |
| `Shape.FromLeBytes` | src/renderer/shape.rs:25-30 | a word built from four little-endian bytes is below 2^24 exactly when its top byte is 0 |
| `Shape.BytesRoundTrip` | src/renderer/shape.rs:25-30 | reading back the bytes of a packed word gives the bytes packed |
| `Shape.WordRoundTrip` | src/renderer/shape.rs:25-30 | packing the bytes of a word gives back the word |
| `Shape.Tag` | src/renderer/shape.rs:37-40 | the kind tag is below 2 |
| `Shape.KindOf` | src/renderer/shape.rs:37-40 | a word decodes to a kind exactly when it is below 2 |
| `Shape.TagRoundTrip` | src/renderer/shape.rs:37-40 | tags decode back to their kind (Sphere = 0, RoundedCone = 1), and only a kind's own tag decodes to it |
| `Shape.ColorWord` | src/renderer/shape.rs:23-34 | the colour word is below 2^24; its bytes are the three gamma-encoded channels in order, then 0 |
| `Shape.MetallicRoughnessWord` | src/renderer/shape.rs:55 | the word is metallic + 256·roughness, below 65536, and both bytes read back |
| `Shape.DefaultImage` | src/renderer/shape.rs:9-17 | all twelve words are zero |
| `Shape.ShapeData.constructor` | src/renderer/shape.rs:43-47 | a new shape is the default one: all twelve words zero |
| `Shape.ShapeData.UpdateSphere` | src/renderer/shape.rs:49-57 | writes tag 0, the colour word, the material word and (x, y, z, radius); keeps data0[3] and data2 |
| `Shape.ShapeData.UpdateRoundedCone` | src/renderer/shape.rs:59-69 | writes tag 1, the colour and material words, (a, radius_a) and (b, radius_b); keeps data0[3] |
| `Shape.ConfigFor` | src/renderer/mod.rs:730 | the configuration records the shape count and the node count |
| `Shape.DefaultShapesConfig` | src/renderer/shape.rs:78-84 | the default configuration has zero shapes |
| `Shape.DefaultDescribesNothing` | src/renderer/mod.rs:248 | the initial configuration is the one describing no shapes and no nodes |
| `Light.New` | src/renderer/light.rs:22-29 | copies the three channels, sets the fourth to 0, and copies position, radius and range |
| `Light.NewRoundTrip` | src/renderer/light.rs:22-29 | the arguments of `new` are recovered from the light, and every light whose fourth channel is 0 is what `new` builds from them |
| `Light.DefaultLight` | src/renderer/light.rs:10-19 | four colour words with the fourth 0, and two position words, as `LightData` holds |
| `Light.DefaultIsWhiteAtOrigin` | src/renderer/light.rs:10-19 | the default light is white (fourth channel 0) at the origin with radius 0 and range 1 |
| `Light.LightData.Default` | src/renderer/light.rs:10-19 | the default-constructed light has the default image |
| `Light.LightData.constructor` | src/renderer/light.rs:22-29 | the constructed light has the image `new` describes |
| `Light.LightData.Update` | src/renderer/light.rs:31-36 | after the update the light equals what `new` builds from the same arguments, whatever it held before |
| `Light.ConfigFor` | src/renderer/mod.rs:718 | the configuration records the number of lights |
| `Light.DefaultLightsConfig` | src/renderer/light.rs:45-51 | the default configuration has zero lights |
| `Light.DefaultDescribesNothing` | src/renderer/mod.rs:191 | the initial configuration is the one describing no lights |
| `Taa.Workgroups` | src/renderer/taa.rs:184-188 | groups·16 ≥ pixels and (groups−1)·16 < pixels |
| `Taa.TAA.constructor` | src/renderer/taa.rs:21-122 | two textures of the output resolution; group 0 reads texture 0 and writes texture 1, group 1 the reverse; output group `k` shows texture `k`; index 0 |
| `Taa.TAA.Resize` | src/renderer/taa.rs:162-164 | only the output resolution changes; no texture or bind group changes |
| `Taa.TAA.OutputBindGroup` | src/renderer/taa.rs:192-194 | shows the texture at the history index |
| `Taa.TAA.Render` | src/renderer/taa.rs:166-190 | as written: the index flips; the newly indexed slot is reallocated only if its size differs, and only then are the group at the old index and the output group at the new index rebuilt; the pass uses the old-index group, writes the texture then shown, and has ceil(res/16) groups |
| `Taa.TAA.RenderCorrected` | src/renderer/taa.rs:166-190 | with the group at the new index also rebuilt, every group keeps naming current textures, and each frame reads as history the texture the previous frame showed |
| `Taa.StaleHistoryAfterResize` | src/renderer/taa.rs:172-175 | after a resize from 64×64 to 128×128, the third frame's history is the 64×64 allocation made at construction, not the texture the second frame showed |
| `Taa.CurrentHistoryAfterResize` | src/renderer/taa.rs:172-175 | with the corrected render, the third frame reads what the second frame showed |
| `Blit.BLIT.constructor` | src/renderer/blit_sampler.rs:10-28 | records the colour texture's size and binds that texture |
| `Blit.BLIT.UpdateOutputBindGroup` | src/renderer/blit_sampler.rs:47-51 | as written: rebinds exactly when the incoming size differs from the recorded size; the record never changes |
| `Blit.BLIT.UpdateOutputBindGroupCorrected` | src/renderer/blit_sampler.rs:47-51 | afterwards the group shows the texture passed in, and the record matches it |
| `Blit.StaleAfterReturnToSize` | src/renderer/blit_sampler.rs:4 | after reallocations at 128×128 and then at the construction size 64×64, the group shows the 128×128 texture, not the current one |
| `Blit.StaleAfterSameSize` | src/renderer/blit_sampler.rs:48 | a reallocation at the same size leaves the group on the replaced texture |
| `Blit.CurrentAfterReturnToSize` | src/renderer/blit_sampler.rs:47-51 | with the corrected update, the group shows the current colour texture |
| `LightMap.BlueNoiseTiles` | src/renderer/light_map.rs:34-49 | 64 tiles, tile `k` at position `k` |
| `LightMap.LightMapRenderer.constructor` | src/renderer/light_map.rs:15-119 | tile index 0, target of the requested resolution |
| `LightMap.LightMapRenderer.Resize` | src/renderer/light_map.rs:121-136 | replaces only the target; the tile index is unchanged |
| `LightMap.LightMapRenderer.Render` | src/renderer/light_map.rs:138-168 | the index advances by one modulo 64 before the tile is bound, and the tile bound is the advanced one |
| `LightMap.FirstFrameTile` | src/renderer/light_map.rs:165 | the first frame after construction uses tile 1 |
| `LegacyRenderer.Ceil` | src/renderer.rs:174 | rounds up: the least integer not below x |
| `LegacyRenderer.SaturatingU32` | src/renderer.rs:174 | the float-to-`u32` cast saturates into [0, u32::MAX] and keeps in-range values |
| `LegacyRenderer.ClampResolution` | src/renderer.rs:174-175 | the extent lies in [16, 4096]; it is the rounded-up resolution when that is in range, else 16 or 4096 |
| `LegacyRenderer.ClampKeepsInRange` | src/renderer.rs:174-175 | whole resolutions in [16, 4096] are kept |
| `LegacyRenderer.ClampIdempotent` | src/renderer.rs:174-175 | clamping twice is clamping once |
| `LegacyRenderer.ClampMonotone` | src/renderer.rs:355-356 | a larger resolution never yields a smaller light map |
| `LegacyRenderer.ClampCovers` | src/renderer.rs:355-356 | up to 4096 the light map is at least as large as the resolution |
| `LegacyRenderer.LightmapSize` | src/renderer.rs:172-177 | the same clamp on both axes, one layer |
| `LegacyRenderer.DefaultUniforms` | src/renderer.rs:19-31 | the world-size inverse times the world size is 1 on each axis; origin, no cursor, time 0 |
| `LegacyRenderer.Renderer.constructor` | src/renderer.rs:54-350 | the view is the whole world, the uniforms carry world size and inverse, the light map is clamped, index 0 |
| `LegacyRenderer.Renderer.Resize` | src/renderer.rs:352-386 | a new clamped light map, rebound; the view keeps its height and takes the window's aspect ratio |
| `LegacyRenderer.Renderer.UpdateUniforms` | src/renderer.rs:388-394 | position, view size, mouse and cursor size are copied verbatim, and the time is set; the tile index, light map and its binding, position and view size are unchanged |
| `LegacyRenderer.Renderer.Render` | src/renderer.rs:396-452 | the tile index advances by one modulo 64 before the tile is selected, and the tile is the advanced one; uniforms, light map, position and view size are unchanged |
| `Sdf.ReplayRecoverable` | src/sdf.rs:273-280 | the current field gives back its cleared start and exactly the edits applied, in order |
| `Sdf.DefaultUniforms` | src/sdf.rs:16-26 | the world-size inverse times the world size is 1 on each axis; a brush of radius 10 and smoothness 1 at the origin |
| `Sdf.SDF.OutputBindGroup` | src/sdf.rs:331-333 | shows the texture at the current index |
| `Sdf.SDF.constructor` | src/sdf.rs:43-248 | texture 0 is the cleared one, index 0, no edits yet, world size and its inverse in the uniforms, the default radius and smoothness |
| `Sdf.SDF.Stamp` | src/sdf.rs:267-297 | the shared edit: sets the cursor uniforms, reads the old-index texture, writes the other, and flips the index; the current field gains the edit |
| `Sdf.SDF.Add` | src/sdf.rs:267-297 | world_pos = cursor, radius = smoothness = cursor_size/4; reads the old-index texture and writes and then shows the other; flips the index once |
| `Sdf.SDF.Subtract` | src/sdf.rs:299-329 | the same state change as add, drawn with the subtracting pipeline |
| `Sdf.TwoEdits` | src/sdf.rs:274 | after two edits of any kind the index is back at 0, and the second edit reads what the first wrote |
| `Gpu.IntermediateSize` | src/renderer/texture.rs:76-80 | a texture made for a resolution has that width and height and one layer |
| `Gpu.AspectWidth` | src/renderer/mod.rs:699 | the new width over the kept height equals the resolution's aspect ratio |
| `Gpu.WritePrefix` | src/renderer/mod.rs:717 | writing at offset 0 replaces the front of the buffer and keeps its length and the rest |
| `Renderer.UpsamplerCell.Variant` | src/renderer/mod.rs:66-71 | TAA exactly for the TAA cell |
| `Renderer.UpsamplerCell.OutputBindGroup` | src/renderer/mod.rs:59-64 | under TAA the slot at the history index, under BLIT the BLIT's group |
| `Renderer.UpsamplerCell.Resize` | src/renderer/mod.rs:52-57 | forwards the resolution to TAA; a BLIT cell is unchanged; what is shown does not change |
| `Renderer.DefaultUniforms` | src/renderer/mod.rs:89-106 | the world-size inverse times the world size is 1 on each axis; the pixel size is the view size over one pixel; origin, no jitter, no cursor, time 0, exposure 1 |
| `Renderer.PixelSize` | src/renderer/mod.rs:705 | pixel size times the render resolution is the view size |
| `Renderer.Renderer.constructor` | src/renderer/mod.rs:147-630 | a quarter of the world in view at the output aspect ratio; uniforms; buffers of default lights, shapes and nodes with zero counts; the jitter table; index 0; the light map at tile index 0 with a target at the render resolution; a TAA in its initial state at the output resolution (`Taa.TAA.Initial`) |
| `Renderer.Renderer.ResizeRenderResolution` | src/renderer/mod.rs:632-691 | a new light-map target (the light map's next allocation) and a new colour texture, both at the render resolution, with the tile index kept; a BLIT upsampler is pointed at the new colour texture by the corrected update, a TAA upsampler is untouched; uniforms, position, view size, jitter index, output resolution and the scene buffers and counts are unchanged |
| `Renderer.Renderer.Resize` | src/renderer/mod.rs:693-700 | records both resolutions, forwards the output resolution to TAA with its history index kept and its textures and bind groups unchanged (the reallocation is left to the next frames), keeps the view height and sets the output aspect ratio; the new colour texture and the light map's next allocation are at the render resolution with the tile index kept; uniforms, position, jitter index and the scene buffers and counts are unchanged |
| `Renderer.Renderer.UpdateUniforms` | src/renderer/mod.rs:702-714 | the jitter is the current table entry under TAA and zero under BLIT; camera, cursor, pixel size, time and exposure are set and every other uniform kept; position, view size, resolutions, textures, upsampler, jitter index and the scene buffers and counts are unchanged |
| `Renderer.Renderer.UpdateLights` | src/renderer/mod.rs:716-719 | given images of `LightData`'s array lengths, the lights overwrite the front of the light buffer, and the count is recorded; the shape and node buffers and the whole view state (uniforms, upsampler, resolutions, colour texture, jitter index, position, view size) are unchanged |
| `Renderer.Renderer.UpdateShapes` | src/renderer/mod.rs:721-731 | given images of `ShapeData`'s array lengths, the nodes are the mapped flattened tree; nodes and shapes overwrite the front of their buffers; both counts are recorded; the light buffer and the whole view state (uniforms, upsampler, resolutions, colour texture, jitter index, position, view size) are unchanged |
| `Renderer.Renderer.Render` | src/renderer/mod.rs:733-799 | the tile and jitter indices each advance once; TAA reads what was shown last frame and writes what is shown now, and the texture shown has the output resolution; under BLIT the current colour texture is shown; position, view size, textures and the scene buffers and counts are unchanged |
| `Renderer.Renderer.UpdateUpsampler` | src/renderer/mod.rs:801-808 | the renderer is unchanged when the requested variant is in use; otherwise a fresh upsampler of that variant is installed: a TAA in its initial state at the output resolution, or a BLIT that records the colour texture's size and shows it; the scene buffers and counts, resolutions, textures, position and view size are unchanged |
| `Renderer.FirstFrame` | src/renderer/mod.rs:147-799 | the first frame after `Renderer::new` (mod.rs:147-630), rendered once (mod.rs:733-799), dithers with tile 1 (src/renderer/light_map.rs:139-165), and its TAA pass reads the construction-time texture 0 as history |

## Left out

- The wgpu plumbing is not modelled: pipelines, layouts, samplers, shader modules, command encoding, and the geometry pass and its resize. The texture and sampler helpers in src/renderer/texture.rs and the pass in src/renderer/geometry.rs are not part of this model, apart from the extent of an intermediate texture.
- The shaders are not modelled, so texel values are absent. A distance-field texture's contents are described by provenance: the texture it was drawn from and the edit applied. This relies on the edit pipelines drawing every texel with replace blending. No property about distance values is stated.
- Single-precision float arithmetic is modelled over the reals. This covers the radical inverse, the jitter, the view and pixel sizes, the world-size inverse and the BVH box arithmetic: `Bvh.BoxRecovered` (centre and half-extent give back the box) holds over the reals, not necessarily in `f32` rounding. `Taa.Workgroups` divides exactly; the source computes in `f32`, which agrees for resolutions below 2^24.
- The clock is not read. The time uniform is the parameter `elapsed` of `UpdateUniforms`.
- The BVH is not built. The `bvh` crate's flattened output is the parameter `flat` of `Renderer.Renderer.UpdateShapes`. Anything the builder does to the shape list is not modelled.
- The egui colour conversions (gamma and linear byte encoders) are function parameters of the shape updates.
- The blue-noise images are not loaded from disk. They are tile numbers 0..63.
- `Bvh.WrappingNeg` follows release builds, where the negation wraps. A debug build would panic instead, and only for shape index 2^31, which the 4096-shape buffer never reaches.
- `Renderer.Renderer.UpdateLights` requires at most 1024 lights, and `Renderer.Renderer.UpdateShapes` at most 4096 shapes and 16384 nodes. These are the buffer sizes; the source does not clamp, and overfilling a buffer is a wgpu error.
- `Renderer.Renderer.constructor` requires positive resolutions and a non-zero world size. The window layer skips zero window sizes; with a zero world size the `f32` inverse would be infinite, which the reals cannot express.
- `Renderer.Renderer.Resize` and `Renderer.Renderer.ResizeRenderResolution` require positive resolutions, for the same reason.
- `Sdf.SDF.Stamp` records each edit with the uniforms its own call sets. The source uploads them with `queue.write_buffer` (src/sdf.rs:271 and 303), which wgpu applies at the next queue submission, before every command buffer of that submission. The provenance is therefore exact only when at most one edit is encoded per submission. Two edits encoded before one submission both draw with the later call's uniforms; the model does not capture this staged write.
- `Sdf.SDF.Add` and `Sdf.SDF.Subtract` inherit that assumption from `Sdf.SDF.Stamp`.
- `Sdf.SDF.constructor` requires a non-zero world size, for the `f32` inverse.
- `LegacyRenderer.Renderer.constructor` requires a non-zero world size, for the `f32` inverse.
- `LegacyRenderer.Renderer.Resize` requires a non-zero window height; the aspect division would otherwise be infinite or undefined.
- `Renderer.Renderer.ResizeRenderResolution` uses `Blit.BLIT.UpdateOutputBindGroupCorrected`, which always rebinds. The source rebinds only when the size differs from the recorded one (see Findings). The conjunct of `Renderer.Renderer.Valid` that a BLIT upsampler shows the current colour texture holds only with this corrected update. The as-written update is modelled and its failure exhibited in `Blit`.
- `Renderer.Renderer.Resize` inherits the corrected BLIT update through `Renderer.Renderer.ResizeRenderResolution`. Its TAA conjunct (`Taa.TAA.HistoryCurrent` inside `Renderer.Renderer.Valid`: each frame's history is what the previous frame showed) holds only because `Renderer.Renderer.Render` uses `Taa.TAA.RenderCorrected`. Under the as-written TAA render it fails after a resize, as `Taa.StaleHistoryAfterResize` exhibits.
- `Renderer.Renderer.Render` uses `Taa.TAA.RenderCorrected`, which rebuilds both bind groups that name a reallocated slot (see Findings). The as-written version is modelled and its failure exhibited in `Taa`.
- `Renderer.Renderer.Render` does not state the TAA arrays' new contents; `Taa.TAA.RenderCorrected`, which it calls, states them.
- `Blit.BLIT.OutputBindGroup` is an accessor with no contract. What it returns is stated through `Renderer.Renderer.Render`.
- The source files come from different revisions. The model follows src/renderer/mod.rs:
  - `ShapesConfig` carries the node count that src/renderer/mod.rs:730 writes, although src/renderer/shape.rs:74-76 declares only the shape count.
  - `ShapeBVHNode` is defined from src/renderer/mod.rs:723-726; its default is taken to be all zeros.
- Node encoding: a leaf stores the arithmetic negation of its shape index in its entry word (src/renderer/mod.rs:724), and the model follows this; `Bvh.LeafZeroMeetsEntryZero` records that shape 0 then encodes as entry 0. Whether the traversal shader tells these apart is outside the model.
- The padding word of the renderer's uniforms is left out, and so are the uniform buffer uploads.

## Findings

| source | as written | input that shows it | evidently intended | confidence | as-written member | corrected member |
|---|---|---|---|---|---|---|
| src/renderer/taa.rs:170-175 | when a slot is reallocated after a resize, only the bind group at the old index is rebuilt. The group at the new index keeps reading the replaced allocation as history, so from then on every other frame blends with a texture that is no longer written. | `TAA::new(64×64)`, `resize(128×128)`, three `render` calls: the third frame's history is the construction-time 64×64 texture, while the second frame wrote and showed a new 128×128 one | both groups that name the reallocated slot are rebuilt, so each frame reads as history what the previous frame showed | medium, not executed | `Taa.StaleHistoryAfterResize` | `Taa.TAA.RenderCorrected` |
| src/renderer/blit_sampler.rs:47-51 | the rebind is decided by comparing with the size recorded at construction, and the record is never updated. A reallocated colour texture whose size equals the construction size is never bound, and the final pass keeps showing a replaced texture. | `BLIT::new` on a 64×64 colour texture, then updates with a new 128×128 texture and a new 64×64 texture: the group still shows the 128×128 one. A same-size reallocation is missed too (`Blit.StaleAfterSameSize`) | the group shows the current colour texture after every update | high, not executed | `Blit.StaleAfterReturnToSize` | `Blit.BLIT.UpdateOutputBindGroupCorrected` |
