/** The older, single-pass variant of the renderer (src/renderer.rs): a
    light-map pass at a clamped resolution, dithered with a rotating
    blue-noise tile, then a final pass. */
module LegacyRenderer {
  import opened Gpu
  import Cyclic
  import LightMap

  /** `x.ceil()`, the least integer not below `x`. */
  function Ceil(x: real): (c: int)
    ensures (c - 1) as real < x <= c as real
  {
    -((-x).Floor)
  }

  /** `as u32` from a float: saturates at both ends of the range. */
  function SaturatingU32(c: int): (s: int)
    ensures 0 <= s <= U32_MAX
    ensures 0 <= c <= U32_MAX ==> s == c
  {
    if c < 0 then 0 else if c > U32_MAX then U32_MAX else c
  }

  /** The light-map extent along one axis: the resolution rounded up, cast to
      `u32`, then raised to at least 16 and lowered to at most 4096. */
  function ClampResolution(x: real): (w: int)
    ensures 16 <= w <= 4096
    ensures 16 <= Ceil(x) <= 4096 ==> w == Ceil(x)
    ensures Ceil(x) < 16 ==> w == 16
    ensures Ceil(x) > 4096 ==> w == 4096
  {
    var s := SaturatingU32(Ceil(x));
    var atLeast := if s < 16 then 16 else s;
    if atLeast > 4096 then 4096 else atLeast
  }

  /** Whole resolutions in range are kept as they are. */
  lemma ClampKeepsInRange(n: int)
    requires 16 <= n <= 4096
    ensures ClampResolution(n as real) == n
  {
    assert Ceil(n as real) == n;
  }

  /** Clamping a clamped resolution changes nothing. */
  lemma ClampIdempotent(x: real)
    ensures ClampResolution(ClampResolution(x) as real) == ClampResolution(x)
  {
    ClampKeepsInRange(ClampResolution(x));
  }

  /** A larger resolution never gets a smaller light map. */
  lemma ClampMonotone(x: real, y: real)
    requires x <= y
    ensures ClampResolution(x) <= ClampResolution(y)
  {
    assert Ceil(x) <= Ceil(y);
  }

  /** Up to 4096 the light map covers the resolution. */
  lemma ClampCovers(x: real)
    requires x <= 4096.0
    ensures x <= ClampResolution(x) as real
  {
  }

  /** The light-map extent for a (fractional) window resolution: the same
      clamp on both axes, one layer. */
  function LightmapSize(resolution: Vec2): (e: Extent3d)
    ensures e.width == ClampResolution(resolution.x) && e.height == ClampResolution(resolution.y)
    ensures e.depthOrArrayLayers == 1
  {
    Extent3d(ClampResolution(resolution.x), ClampResolution(resolution.y), 1)
  }

  /** The uniforms of this variant. */
  datatype Uniforms = Uniforms(translate: Vec2, viewSize: Vec2, worldSize: Vec2, invWorldSize: Vec2,
                               mouse: Vec2, cursorSize: real, time: real)

  /** `Uniforms::default()`: a unit view and world at the origin, the
      world-size inverse consistent with the world size, no cursor, time 0. */
  function DefaultUniforms(): (u: Uniforms)
    ensures u.invWorldSize.x * u.worldSize.x == 1.0 && u.invWorldSize.y * u.worldSize.y == 1.0
    ensures u.translate == Vec2(0.0, 0.0) && u.cursorSize == 0.0 && u.time == 0.0
  {
    Uniforms(Vec2(0.0, 0.0), Vec2(1.0, 1.0), Vec2(1.0, 1.0), Vec2(1.0, 1.0), Vec2(0.0, 0.0), 0.0, 0.0)
  }

  class Renderer {
    var uniforms: Uniforms
    /** One bind group per blue-noise tile. */
    const blueNoiseTextures: seq<nat>
    var blueNoiseIndex: nat
    var lightmapView: Texture
    /** The light-map texture the final pass samples. */
    var lightmapBindGroup: Texture
    /** The generation the next allocated texture receives. */
    var nextGeneration: nat
    var position: Vec2
    var viewSize: Vec2

    /** The tile index stays in the pool, the final pass samples the current
        light map, and that light map is clamped on both axes. */
    ghost predicate Valid()
      reads this
    {
      blueNoiseTextures == LightMap.BlueNoiseTiles() &&
      blueNoiseIndex < |blueNoiseTextures| &&
      lightmapBindGroup == lightmapView && lightmapView.generation < nextGeneration &&
      16 <= lightmapView.size.width <= 4096 && 16 <= lightmapView.size.height <= 4096
    }

    /** `Renderer::new`: the view is the whole world, the uniforms carry the
        world size and its inverse, the light map is clamped, index 0. */
    constructor (resolution: Vec2, worldSize: Vec2)
      requires worldSize.x != 0.0 && worldSize.y != 0.0
      ensures Valid()
      ensures uniforms == DefaultUniforms().(viewSize := worldSize, worldSize := worldSize,
                                            invWorldSize := Vec2(1.0 / worldSize.x, 1.0 / worldSize.y))
      ensures uniforms.invWorldSize.x * worldSize.x == 1.0 && uniforms.invWorldSize.y * worldSize.y == 1.0
      ensures lightmapView == Texture(LightmapSize(resolution), 0)
      ensures blueNoiseIndex == 0 && position == Vec2(0.0, 0.0) && viewSize == worldSize
    {
      uniforms := DefaultUniforms().(viewSize := worldSize, worldSize := worldSize,
                                     invWorldSize := Vec2(1.0 / worldSize.x, 1.0 / worldSize.y));
      blueNoiseTextures := LightMap.BlueNoiseTiles();
      blueNoiseIndex := 0;
      lightmapView := Texture(LightmapSize(resolution), 0);
      lightmapBindGroup := lightmapView;
      nextGeneration := 1;
      position := Vec2(0.0, 0.0);
      viewSize := worldSize;
    }

    /** `resize`: a new clamped light map, bound for the final pass, and the
        view widened or narrowed to the window's aspect ratio at the same
        height. */
    method Resize(resolution: Vec2)
      requires Valid()
      requires resolution.y != 0.0
      modifies this
      ensures Valid()
      ensures lightmapView == Texture(LightmapSize(resolution), old(nextGeneration))
      ensures nextGeneration == old(nextGeneration) + 1
      ensures viewSize.y == old(viewSize.y)
      ensures viewSize.x * resolution.y == viewSize.y * resolution.x
      ensures blueNoiseIndex == old(blueNoiseIndex) && uniforms == old(uniforms) && position == old(position)
    {
      lightmapView := Texture(LightmapSize(resolution), nextGeneration);
      nextGeneration := nextGeneration + 1;
      lightmapBindGroup := lightmapView;
      viewSize := viewSize.(x := AspectWidth(viewSize.y, resolution.x, resolution.y));
    }

    /** `update_uniforms`: position, view size, mouse and cursor size copied
        verbatim; `elapsed` stands for the seconds since construction. */
    method UpdateUniforms(mouse: Vec2, cursorSize: real, elapsed: real)
      requires Valid()
      modifies this
      ensures Valid()
      ensures uniforms == old(uniforms).(translate := position, viewSize := viewSize, mouse := mouse,
                                         cursorSize := cursorSize, time := elapsed)
      ensures blueNoiseIndex == old(blueNoiseIndex) && lightmapView == old(lightmapView)
      ensures lightmapBindGroup == old(lightmapBindGroup) && nextGeneration == old(nextGeneration)
      ensures position == old(position) && viewSize == old(viewSize)
    {
      uniforms := uniforms.(translate := position, viewSize := viewSize, mouse := mouse,
                            cursorSize := cursorSize, time := elapsed);
    }

    /** `render`: the tile index advances by one modulo the pool size before
        the light-map pass binds the tile at the advanced index. */
    method Render() returns (tile: nat, lightmap: Texture)
      requires Valid()
      modifies this
      ensures Valid()
      ensures blueNoiseIndex == Cyclic.Next(old(blueNoiseIndex), Cyclic.BLUE_NOISE_TILES)
      ensures tile == blueNoiseIndex
      ensures lightmap == lightmapView
      ensures uniforms == old(uniforms) && lightmapView == old(lightmapView)
      ensures lightmapBindGroup == old(lightmapBindGroup) && nextGeneration == old(nextGeneration)
      ensures position == old(position) && viewSize == old(viewSize)
    {
      blueNoiseIndex := Cyclic.Next(blueNoiseIndex, |blueNoiseTextures|);
      tile := blueNoiseTextures[blueNoiseIndex];
      lightmap := lightmapBindGroup;
    }
  }
}
