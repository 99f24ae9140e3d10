/** The light-map pass (src/renderer/light_map.rs): a pool of blue-noise
    dither tiles bound in rotation, one per frame, and the render-resolution
    target the pass draws into. */
module LightMap {
  import opened Gpu
  import Cyclic

  /** The 64 blue-noise images loaded at construction, as tile numbers. */
  function BlueNoiseTiles(): (tiles: seq<nat>)
    ensures |tiles| == Cyclic.BLUE_NOISE_TILES
    ensures forall k :: 0 <= k < |tiles| ==> tiles[k] == k
  {
    seq(Cyclic.BLUE_NOISE_TILES, k => k)
  }

  class LightMapRenderer {
    /** One bind group per blue-noise tile. */
    const blueNoiseTextures: seq<nat>
    var blueNoiseIndex: nat
    /** The light-map target. */
    var lightmapView: Texture
    /** The generation the next allocated texture receives. */
    var nextGeneration: nat

    ghost predicate Valid()
      reads this
    {
      blueNoiseTextures == BlueNoiseTiles() &&
      blueNoiseIndex < |blueNoiseTextures| &&
      lightmapView.generation < nextGeneration
    }

    /** `LightMapRenderer::new`: the tile pool, index 0, and a target of the
        given resolution. */
    constructor (resolution: UVec2)
      ensures Valid()
      ensures blueNoiseIndex == 0 && lightmapView == Texture(IntermediateSize(resolution), 0)
      ensures nextGeneration == 1
    {
      blueNoiseTextures := BlueNoiseTiles();
      blueNoiseIndex := 0;
      lightmapView := Texture(IntermediateSize(resolution), 0);
      nextGeneration := 1;
    }

    /** `resize`: a new target of the given resolution; the tile rotation
        is left where it was. */
    method Resize(resolution: UVec2)
      requires Valid()
      modifies this
      ensures Valid()
      ensures lightmapView == Texture(IntermediateSize(resolution), old(nextGeneration))
      ensures nextGeneration == old(nextGeneration) + 1
      ensures blueNoiseIndex == old(blueNoiseIndex)
    {
      lightmapView := Texture(IntermediateSize(resolution), nextGeneration);
      nextGeneration := nextGeneration + 1;
    }

    /** `render`: the index advances by one modulo the pool size first, and
        the tile bound is the one at the advanced index. */
    method Render() returns (tile: nat)
      requires Valid()
      modifies this
      ensures Valid()
      ensures blueNoiseIndex == Cyclic.Next(old(blueNoiseIndex), Cyclic.BLUE_NOISE_TILES)
      ensures tile == blueNoiseIndex
      ensures lightmapView == old(lightmapView) && nextGeneration == old(nextGeneration)
    {
      blueNoiseIndex := Cyclic.Next(blueNoiseIndex, |blueNoiseTextures|);
      tile := blueNoiseTextures[blueNoiseIndex];
    }
  }

  /** The first frame after construction dithers with tile 1, not tile 0. */
  method FirstFrameTile() returns (tile: nat)
    ensures tile == 1
  {
    var lightMap := new LightMapRenderer(UVec2(64, 64));
    tile := lightMap.Render();
  }
}
