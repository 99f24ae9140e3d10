/** The renderer (src/renderer/mod.rs): per frame a geometry pass, a
    light-map pass, a lighting pass into the render-resolution colour
    texture, an upsampling step (temporal anti-aliasing or a plain blit) and
    a final pass that shows the upsampler's output. The model keeps the CPU
    side: the uniforms, the light/shape/BVH buffers as sequences, the jitter
    table and index, the upsampler variant, and the textures each pass uses. */
module Renderer {
  import opened Gpu
  import Cyclic
  import Halton
  import Bvh
  import Shape
  import Light
  import Taa
  import Blit
  import LightMap

  const MAX_LIGHTS: nat := 1024
  const MAX_SHAPES: nat := 4096

  /** `Upsampler`. */
  datatype Upsampler = TAA | BLIT

  /** `UpsamplerCell`: the upsampler in use. */
  datatype UpsamplerCell = TaaCell(taa: Taa.TAA) | BlitCell(blit: Blit.BLIT)
  {
    /** `upsampler()`: the variant held. */
    function Variant(): (u: Upsampler)
      ensures u == TAA <==> this.TaaCell?
    {
      match this
      case TaaCell(_) => TAA
      case BlitCell(_) => BLIT
    }

    /** The objects the upsampler owns. */
    ghost function Objects(): set<object> {
      match this
      case TaaCell(t) => {t, t.textures, t.taaBindGroups, t.outputBindGroups}
      case BlitCell(b) => {b}
    }

    ghost predicate Valid()
      reads Objects()
    {
      match this
      case TaaCell(t) => t.Valid() && t.HistoryCurrent()
      case BlitCell(b) => b.Valid()
    }

    /** `output_bind_group`: what the final pass shows, the TAA slot at
        the history index or the BLIT group. */
    function OutputBindGroup(): (shown: Texture)
      requires Valid()
      reads Objects()
      ensures this.TaaCell? ==> shown == taa.textures[taa.historyTextureIndex]
      ensures this.BlitCell? ==> shown == blit.OutputBindGroup()
    {
      match this
      case TaaCell(t) => t.OutputBindGroup()
      case BlitCell(b) => b.OutputBindGroup()
    }

    /** `UpsamplerCell::resize`: forwarded to TAA, ignored by BLIT. */
    method Resize(resolution: UVec2)
      requires Valid()
      modifies Objects()
      ensures Valid()
      ensures this.TaaCell? ==> taa.outputResolution == resolution && taa.historyTextureIndex == old(taa.historyTextureIndex)
      ensures forall o :: o in Objects() ==> unchanged(o) || (this.TaaCell? && o == taa)
      ensures OutputBindGroup() == old(OutputBindGroup())
    {
      match this {
        case TaaCell(t) => t.Resize(resolution);
        case BlitCell(_) =>
      }
    }
  }

  /** The frame uniforms (the padding word is left out). */
  datatype Uniforms = Uniforms(translate: Vec2, viewSize: Vec2, worldSize: Vec2, invWorldSize: Vec2,
                               pixelSize: Vec2, subPixelJitter: Halton.Jitter, mouse: Vec2,
                               cursorSize: real, time: real, exposure: real)

  /** `Uniforms::default()`: a unit view, world and pixel at the origin,
      the world-size inverse consistent with the world size, no jitter, no
      cursor and neutral exposure. */
  function DefaultUniforms(): (u: Uniforms)
    ensures u.invWorldSize.x * u.worldSize.x == 1.0 && u.invWorldSize.y * u.worldSize.y == 1.0
    ensures u.pixelSize == PixelSize(u.viewSize, UVec2(1, 1))
    ensures u.translate == Vec2(0.0, 0.0) && u.subPixelJitter == Halton.Jitter(0.0, 0.0)
    ensures u.cursorSize == 0.0 && u.time == 0.0 && u.exposure == 1.0
  {
    Uniforms(Vec2(0.0, 0.0), Vec2(1.0, 1.0), Vec2(1.0, 1.0), Vec2(1.0, 1.0), Vec2(1.0, 1.0),
             Halton.Jitter(0.0, 0.0), Vec2(0.0, 0.0), 0.0, 0.0, 1.0)
  }

  /** The size of one render-resolution pixel in world units. */
  function PixelSize(viewSize: Vec2, resolution: UVec2): (p: Vec2)
    requires Positive(resolution)
    ensures p.x * resolution.x as real == viewSize.x && p.y * resolution.y as real == viewSize.y
  {
    Vec2(viewSize.x / resolution.x as real, viewSize.y / resolution.y as real)
  }

  /** What one call to `render` did: the blue-noise tile dithered with, the
      TAA dispatch if TAA is in use, and the texture the final pass showed. */
  datatype Frame = Frame(blueNoiseTile: nat, taaPass: Option<Taa.TaaPass>, shown: Texture)

  class Renderer {
    var uniforms: Uniforms
    var lightsBuffer: seq<Light.LightImage>
    var lightsConfig: Light.LightsConfig
    var shapesBuffer: seq<Shape.ShapeImage>
    var bvh: seq<Bvh.ShapeBVHNode>
    var bvhBuffer: seq<Bvh.ShapeBVHNode>
    var shapesConfig: Shape.ShapesConfig
    const lightMap: LightMap.LightMapRenderer
    /** The light map the lighting pass samples. */
    var lightmapBindGroup: Texture
    var colorTexture: Texture
    /** The colour texture the TAA pass samples. */
    var colorBindGroup: Texture
    /** The generation the next colour texture receives. */
    var nextGeneration: nat
    const subpixelJitterSamples: seq<Halton.Jitter>
    var subpixelJitterIndex: nat
    var upsampler: UpsamplerCell
    var renderResolution: UVec2
    var outputResolution: UVec2
    var position: Vec2
    var viewSize: Vec2
    ghost var Repr: set<object>

    ghost predicate Valid()
      reads this, Repr
    {
      this in Repr && lightMap in Repr && upsampler.Objects() <= Repr &&
      this !in upsampler.Objects() && lightMap !in upsampler.Objects() &&
      lightMap.Valid() && upsampler.Valid() &&
      subpixelJitterSamples == Halton.JitterTable() &&
      subpixelJitterIndex < |subpixelJitterSamples| &&
      |lightsBuffer| == MAX_LIGHTS && |shapesBuffer| == MAX_SHAPES && |bvhBuffer| == 4 * MAX_SHAPES &&
      lightmapBindGroup == lightMap.lightmapView &&
      colorBindGroup == colorTexture && colorTexture.generation < nextGeneration &&
      colorTexture.size == IntermediateSize(renderResolution) &&
      Positive(renderResolution) && Positive(outputResolution) &&
      (upsampler.TaaCell? ==> upsampler.taa.outputResolution == outputResolution) &&
      (upsampler.BlitCell? ==> upsampler.blit.OutputBindGroup() == colorTexture)
    }

    /** The scene description is as it was: the light, shape and node
        buffers, the flattened tree and both counts. */
    twostate predicate SceneUnchanged()
      reads this
    {
      lightsBuffer == old(lightsBuffer) && lightsConfig == old(lightsConfig) &&
      shapesBuffer == old(shapesBuffer) && bvh == old(bvh) && bvhBuffer == old(bvhBuffer) &&
      shapesConfig == old(shapesConfig)
    }

    /** The view state is as it was: uniforms, upsampler, both resolutions,
        the colour texture and light map bindings, the jitter index and the
        camera. */
    twostate predicate ViewUnchanged()
      reads this
    {
      uniforms == old(uniforms) && upsampler == old(upsampler) &&
      renderResolution == old(renderResolution) && outputResolution == old(outputResolution) &&
      colorTexture == old(colorTexture) && colorBindGroup == old(colorBindGroup) &&
      lightmapBindGroup == old(lightmapBindGroup) && nextGeneration == old(nextGeneration) &&
      subpixelJitterIndex == old(subpixelJitterIndex) && position == old(position) && viewSize == old(viewSize)
    }

    /** Rewriting the scene buffers at their sizes keeps the renderer valid
        as long as the view state and every other object are untouched. */
    twostate lemma SceneUpdateKeepsValid()
      requires old(Valid()) && ViewUnchanged() && Repr == old(Repr)
      requires unchanged(old(Repr) - {this})
      requires |lightsBuffer| == MAX_LIGHTS && |shapesBuffer| == MAX_SHAPES && |bvhBuffer| == 4 * MAX_SHAPES
      ensures Valid()
    {
    }

    /** `Renderer::new`: a quarter of the world in view, widened to the
        output aspect ratio; default uniforms with the view, world and pixel
        sizes; default lights and shapes in buffers of the maximal sizes and
        zero counts; the jitter table; index 0; TAA at the output
        resolution. */
    constructor (renderResolution: UVec2, outputResolution: UVec2, worldSize: Vec2)
      requires Positive(renderResolution) && Positive(outputResolution)
      requires worldSize.x != 0.0 && worldSize.y != 0.0
      ensures Valid() && fresh(Repr)
      ensures viewSize.y == worldSize.y / 4.0
      ensures viewSize.x * outputResolution.y as real == viewSize.y * outputResolution.x as real
      ensures uniforms == DefaultUniforms().(viewSize := viewSize, worldSize := worldSize,
                                            invWorldSize := Vec2(1.0 / worldSize.x, 1.0 / worldSize.y),
                                            pixelSize := PixelSize(viewSize, renderResolution))
      ensures forall k :: 0 <= k < |lightsBuffer| ==> lightsBuffer[k] == Light.DefaultLight()
      ensures forall k :: 0 <= k < |shapesBuffer| ==> shapesBuffer[k] == Shape.DefaultImage()
      ensures forall k :: 0 <= k < |bvhBuffer| ==> bvhBuffer[k] == Bvh.DefaultNode()
      ensures lightsConfig == Light.ConfigFor(0) && shapesConfig == Shape.ConfigFor(0, 0) && bvh == []
      ensures subpixelJitterIndex == 0 && upsampler.Variant() == TAA
      ensures this.renderResolution == renderResolution && this.outputResolution == outputResolution
      ensures colorTexture.size == IntermediateSize(renderResolution)
      ensures lightMap.blueNoiseIndex == 0 && lightMap.lightmapView == Texture(IntermediateSize(renderResolution), 0)
      ensures upsampler.TaaCell? && upsampler.taa.Initial(outputResolution)
      ensures position == Vec2(0.0, 0.0)
    {
      var quarter := Vec2(worldSize.x / 4.0, worldSize.y / 4.0);
      var view := quarter.(x := AspectWidth(quarter.y, outputResolution.x as real, outputResolution.y as real));
      assert view.x * outputResolution.y as real == view.y * outputResolution.x as real;
      uniforms := DefaultUniforms().(viewSize := view, worldSize := worldSize,
                                     invWorldSize := Vec2(1.0 / worldSize.x, 1.0 / worldSize.y),
                                     pixelSize := PixelSize(view, renderResolution));
      lightsBuffer := seq(MAX_LIGHTS, _ => Light.DefaultLight());
      lightsConfig := Light.LightsConfig(0);
      shapesBuffer := seq(MAX_SHAPES, _ => Shape.DefaultImage());
      bvhBuffer := seq(4 * MAX_SHAPES, _ => Bvh.DefaultNode());
      shapesConfig := Shape.ShapesConfig(0, 0);
      bvh := [];
      var lm := new LightMap.LightMapRenderer(renderResolution);
      lightMap := lm;
      lightmapBindGroup := lm.lightmapView;
      colorTexture := Texture(IntermediateSize(renderResolution), 0);
      colorBindGroup := colorTexture;
      nextGeneration := 1;
      var samples := Halton.BuildJitterSamples();
      Halton.JitterTableUnique(samples);
      subpixelJitterSamples := samples;
      subpixelJitterIndex := 0;
      var taa := new Taa.TAA(outputResolution);
      upsampler := TaaCell(taa);
      this.renderResolution := renderResolution;
      this.outputResolution := outputResolution;
      position := Vec2(0.0, 0.0);
      viewSize := view;
      Repr := {this, lm, taa, taa.textures, taa.taaBindGroups, taa.outputBindGroups};
    }

    /** `resize_render_resolution`: a new light map and colour texture of
        the render resolution, both rebound; a BLIT upsampler is pointed at
        the new colour texture. */
    method ResizeRenderResolution(resolution: UVec2)
      requires Valid() && Positive(resolution)
      modifies Repr
      ensures Valid() && Repr == old(Repr)
      ensures renderResolution == resolution
      ensures colorTexture == Texture(IntermediateSize(resolution), old(nextGeneration))
      ensures lightMap.lightmapView == Texture(IntermediateSize(resolution), old(lightMap.nextGeneration))
      ensures lightMap.blueNoiseIndex == old(lightMap.blueNoiseIndex)
      ensures upsampler == old(upsampler) && outputResolution == old(outputResolution)
      ensures upsampler.TaaCell? ==> unchanged(upsampler.Objects())
      ensures subpixelJitterIndex == old(subpixelJitterIndex) && viewSize == old(viewSize)
      ensures uniforms == old(uniforms) && position == old(position)
      ensures SceneUnchanged()
    {
      lightMap.Resize(resolution);
      lightmapBindGroup := lightMap.lightmapView;
      colorTexture := Texture(IntermediateSize(resolution), nextGeneration);
      nextGeneration := nextGeneration + 1;
      colorBindGroup := colorTexture;
      match upsampler {
        case TaaCell(_) =>
        case BlitCell(blit) => blit.UpdateOutputBindGroupCorrected(colorTexture);
      }
      renderResolution := resolution;
    }

    /** `resize`: the render resolution as above, then the output
        resolution forwarded to the upsampler and recorded, and the view
        widened or narrowed to the output aspect ratio at the same height. */
    method Resize(renderRes: UVec2, outputRes: UVec2)
      requires Valid() && Positive(renderRes) && Positive(outputRes)
      modifies Repr
      ensures Valid() && Repr == old(Repr)
      ensures renderResolution == renderRes && outputResolution == outputRes
      ensures upsampler == old(upsampler)
      ensures upsampler.TaaCell? ==> upsampler.taa.outputResolution == outputRes
      ensures viewSize.y == old(viewSize.y)
      ensures viewSize.x * outputRes.y as real == viewSize.y * outputRes.x as real
      ensures subpixelJitterIndex == old(subpixelJitterIndex) && uniforms == old(uniforms)
      ensures upsampler.TaaCell? ==> upsampler.taa.historyTextureIndex == old(upsampler.taa.historyTextureIndex)
      ensures upsampler.TaaCell? ==>
        unchanged(upsampler.taa.textures, upsampler.taa.taaBindGroups, upsampler.taa.outputBindGroups)
      ensures colorTexture == Texture(IntermediateSize(renderRes), old(nextGeneration))
      ensures lightMap.lightmapView == Texture(IntermediateSize(renderRes), old(lightMap.nextGeneration))
      ensures lightMap.blueNoiseIndex == old(lightMap.blueNoiseIndex)
      ensures position == old(position) && SceneUnchanged()
    {
      ResizeRenderResolution(renderRes);
      upsampler.Resize(outputRes);
      outputResolution := outputRes;
      viewSize := viewSize.(x := AspectWidth(viewSize.y, outputRes.x as real, outputRes.y as real));
    }

    /** `update_uniforms`: the camera and cursor state copied in, the pixel
        size recomputed, the jitter of the current table entry under TAA and
        none under BLIT; `elapsed` stands for the seconds since construction. */
    method UpdateUniforms(mouse: Vec2, cursorSize: real, exposure: real, elapsed: real)
      requires Valid()
      modifies this
      ensures Valid()
      ensures upsampler.Variant() == TAA ==> uniforms.subPixelJitter == Halton.JitterSample(subpixelJitterIndex)
      ensures upsampler.Variant() == BLIT ==> uniforms.subPixelJitter == Halton.Jitter(0.0, 0.0)
      ensures uniforms == old(uniforms).(translate := position, viewSize := viewSize,
                                         pixelSize := PixelSize(viewSize, renderResolution),
                                         subPixelJitter := uniforms.subPixelJitter, mouse := mouse,
                                         cursorSize := cursorSize, time := elapsed, exposure := exposure)
      ensures subpixelJitterIndex == old(subpixelJitterIndex) && upsampler == old(upsampler)
      ensures position == old(position) && viewSize == old(viewSize)
      ensures renderResolution == old(renderResolution) && outputResolution == old(outputResolution)
      ensures colorTexture == old(colorTexture) && colorBindGroup == old(colorBindGroup)
      ensures lightmapBindGroup == old(lightmapBindGroup) && nextGeneration == old(nextGeneration)
      ensures SceneUnchanged()
    {
      var jitter := match upsampler.Variant()
        case TAA => subpixelJitterSamples[subpixelJitterIndex]
        case BLIT => Halton.Jitter(0.0, 0.0);
      uniforms := uniforms.(translate := position, viewSize := viewSize,
                            pixelSize := PixelSize(viewSize, renderResolution),
                            subPixelJitter := jitter, mouse := mouse,
                            cursorSize := cursorSize, time := elapsed, exposure := exposure);
    }

    /** `update_lights`: the lights overwrite the front of the light buffer
        and their number is recorded. */
    method UpdateLights(lights: seq<Light.LightImage>)
      requires Valid() && |lights| <= MAX_LIGHTS
      requires forall k :: 0 <= k < |lights| ==> Light.Sized(lights[k])
      modifies this
      ensures Valid()
      ensures lightsBuffer == WritePrefix(old(lightsBuffer), lights)
      ensures lightsConfig == Light.ConfigFor(|lights|)
      ensures shapesBuffer == old(shapesBuffer) && bvh == old(bvh) && bvhBuffer == old(bvhBuffer)
      ensures shapesConfig == old(shapesConfig)
      ensures ViewUnchanged()
    {
      lightsBuffer := WritePrefix(lightsBuffer, lights);
      lightsConfig := Light.ConfigFor(|lights|);
      SceneUpdateKeepsValid();
    }

    /** `update_shapes`: the flattened tree (the `bvh` crate's output is
        the parameter `flat`) mapped to nodes, written with the shapes to
        the front of their buffers, and both counts recorded. */
    method UpdateShapes(shapes: seq<Shape.ShapeImage>, flat: seq<Bvh.FlatEntry>)
      requires Valid() && |shapes| <= MAX_SHAPES && |flat| <= 4 * MAX_SHAPES
      requires forall k :: 0 <= k < |shapes| ==> Shape.Sized(shapes[k])
      modifies this
      ensures Valid()
      ensures bvh == Bvh.FlattenNodes(flat)
      ensures bvhBuffer == WritePrefix(old(bvhBuffer), bvh)
      ensures shapesBuffer == WritePrefix(old(shapesBuffer), shapes)
      ensures shapesConfig == Shape.ConfigFor(|shapes|, |flat|)
      ensures lightsBuffer == old(lightsBuffer) && lightsConfig == old(lightsConfig)
      ensures ViewUnchanged()
    {
      bvh := Bvh.FlattenNodes(flat);
      bvhBuffer := WritePrefix(bvhBuffer, bvh);
      shapesBuffer := WritePrefix(shapesBuffer, shapes);
      shapesConfig := Shape.ConfigFor(|shapes|, |bvh|);
      SceneUpdateKeepsValid();
    }

    /** `render`: the light-map pass advances its tile; TAA, if in use,
        reads the texture shown last frame and writes the one shown now; the
        final pass shows the upsampler's output (the colour texture under
        BLIT); the jitter index advances by one modulo 16. */
    method Render() returns (frame: Frame)
      requires Valid()
      modifies Repr
      ensures Valid() && Repr == old(Repr)
      ensures subpixelJitterIndex == Cyclic.Next(old(subpixelJitterIndex), Halton.NUM_SUBPIXEL_JITTER_SAMPLES)
      ensures lightMap.blueNoiseIndex == Cyclic.Next(old(lightMap.blueNoiseIndex), Cyclic.BLUE_NOISE_TILES)
      ensures frame.blueNoiseTile == lightMap.blueNoiseIndex
      ensures upsampler == old(upsampler) && frame.shown == upsampler.OutputBindGroup()
      ensures upsampler.BlitCell? ==> frame.taaPass == None && frame.shown == colorTexture
      ensures upsampler.TaaCell? ==>
        frame.taaPass.Some? &&
        frame.taaPass.value.bindGroup == Taa.TaaBindGroup(old(upsampler.OutputBindGroup()), frame.shown) &&
        Taa.Fits(frame.shown, outputResolution)
      ensures uniforms == old(uniforms) && colorTexture == old(colorTexture)
      ensures renderResolution == old(renderResolution) && outputResolution == old(outputResolution)
      ensures colorBindGroup == old(colorBindGroup) && lightmapBindGroup == old(lightmapBindGroup)
      ensures nextGeneration == old(nextGeneration)
      ensures position == old(position) && viewSize == old(viewSize)
      ensures SceneUnchanged()
    {
      var tile := lightMap.Render();
      var pass: Option<Taa.TaaPass> := None;
      match upsampler {
        case TaaCell(taa) =>
          var p := taa.RenderCorrected();
          pass := Some(p);
        case BlitCell(_) =>
      }
      var shown := upsampler.OutputBindGroup();
      subpixelJitterIndex := Cyclic.Next(subpixelJitterIndex, |subpixelJitterSamples|);
      frame := Frame(tile, pass, shown);
    }

    /** `update_upsampler`: nothing changes when the requested variant is
        the one in use; otherwise a new upsampler of that variant replaces
        it, TAA at the output resolution, BLIT on the colour texture. */
    method UpdateUpsampler(requested: Upsampler)
      requires Valid()
      modifies this
      ensures Valid() && old(Repr) <= Repr && fresh(Repr - old(Repr))
      ensures upsampler.Variant() == requested
      ensures old(upsampler.Variant()) == requested ==> upsampler == old(upsampler)
      ensures old(upsampler.Variant()) != requested ==> fresh(upsampler.Objects())
      ensures old(upsampler.Variant()) != requested && requested == TAA ==> upsampler.taa.Initial(outputResolution)
      ensures old(upsampler.Variant()) != requested && requested == BLIT ==>
        upsampler.blit.colorTextureSize == colorTexture.size && upsampler.blit.OutputBindGroup() == colorTexture
      ensures old(upsampler.Variant()) == requested ==> unchanged(this)
      ensures SceneUnchanged()
      ensures subpixelJitterIndex == old(subpixelJitterIndex) && uniforms == old(uniforms)
      ensures colorTexture == old(colorTexture) && colorBindGroup == old(colorBindGroup)
      ensures renderResolution == old(renderResolution) && outputResolution == old(outputResolution)
      ensures lightmapBindGroup == old(lightmapBindGroup) && nextGeneration == old(nextGeneration)
      ensures position == old(position) && viewSize == old(viewSize)
    {
      if requested != upsampler.Variant() {
        match requested {
          case TAA =>
            var taa := new Taa.TAA(outputResolution);
            upsampler := TaaCell(taa);
            Repr := Repr + {taa, taa.textures, taa.taaBindGroups, taa.outputBindGroups};
          case BLIT =>
            var blit := new Blit.BLIT(colorTexture);
            upsampler := BlitCell(blit);
            Repr := Repr + {blit};
        }
      }
    }
  }

  /** The first frame after construction dithers with blue-noise tile 1,
      and its TAA pass reads the construction-time texture 0 as history. */
  method FirstFrame(renderResolution: UVec2, outputResolution: UVec2, worldSize: Vec2) returns (frame: Frame)
    requires Positive(renderResolution) && Positive(outputResolution)
    requires worldSize.x != 0.0 && worldSize.y != 0.0
    ensures frame.blueNoiseTile == 1
    ensures frame.taaPass.Some?
    ensures frame.taaPass.value.bindGroup.history == Texture(IntermediateSize(outputResolution), 0)
  {
    var renderer := new Renderer(renderResolution, outputResolution, worldSize);
    frame := renderer.Render();
  }
}
