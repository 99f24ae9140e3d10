/** The plain upsampler (src/renderer/blit_sampler.rs): the final pass
    samples the colour texture through one output bind group, rebuilt when
    the colour texture changes. */
module Blit {
  import opened Gpu

  class BLIT {
    /** The colour texture size recorded at construction. */
    var colorTextureSize: Extent3d
    /** The colour texture the output bind group samples. */
    var outputBindGroup: Texture

    /** The record is the size of the texture shown. */
    ghost predicate Valid()
      reads this
    {
      colorTextureSize == outputBindGroup.size
    }

    /** `BLIT::new`: records the colour texture's size and binds it. */
    constructor (colorTexture: Texture)
      ensures Valid()
      ensures colorTextureSize == colorTexture.size && outputBindGroup == colorTexture
    {
      colorTextureSize := colorTexture.size;
      outputBindGroup := colorTexture;
    }

    /** `output_bind_group`. */
    function OutputBindGroup(): Texture
      reads this
    {
      outputBindGroup
    }

    /** `update_output_bind_group` as written: rebinds exactly when the
        incoming size differs from the recorded one, and never updates the
        record, so the record stays the construction-time size. */
    method UpdateOutputBindGroup(colorTexture: Texture)
      modifies this
      ensures colorTextureSize == old(colorTextureSize)
      ensures outputBindGroup == if colorTexture.size != old(colorTextureSize) then colorTexture else old(outputBindGroup)
    {
      if colorTextureSize != colorTexture.size {
        outputBindGroup := colorTexture;
      }
    }

    /** `update_output_bind_group` as intended: afterwards the output group
        samples the texture passed in, and the record matches it. */
    method UpdateOutputBindGroupCorrected(colorTexture: Texture)
      requires Valid()
      modifies this
      ensures Valid()
      ensures outputBindGroup == colorTexture && colorTextureSize == colorTexture.size
      ensures old(outputBindGroup) == colorTexture ==> outputBindGroup == old(outputBindGroup)
    {
      if outputBindGroup != colorTexture {
        outputBindGroup := colorTexture;
        colorTextureSize := colorTexture.size;
      }
    }
  }

  /** The colour texture is reallocated at 128x128 and then again at the
      construction size 64x64: the update as written keeps showing the
      128x128 allocation, no longer the colour texture. */
  method StaleAfterReturnToSize() returns (shown: Texture, current: Texture)
    ensures shown != current
    ensures shown.size == IntermediateSize(UVec2(128, 128)) && current.size == IntermediateSize(UVec2(64, 64))
  {
    var blit := new BLIT(Texture(IntermediateSize(UVec2(64, 64)), 0));
    blit.UpdateOutputBindGroup(Texture(IntermediateSize(UVec2(128, 128)), 1));
    current := Texture(IntermediateSize(UVec2(64, 64)), 2);
    blit.UpdateOutputBindGroup(current);
    shown := blit.OutputBindGroup();
  }

  /** A reallocation that keeps the size is missed as well: the update as
      written keeps showing the construction-time allocation. */
  method StaleAfterSameSize() returns (shown: Texture, current: Texture)
    ensures shown != current && shown.size == current.size
  {
    var blit := new BLIT(Texture(IntermediateSize(UVec2(64, 64)), 0));
    current := Texture(IntermediateSize(UVec2(64, 64)), 1);
    blit.UpdateOutputBindGroup(current);
    shown := blit.OutputBindGroup();
  }

  /** The same reallocations with the corrected update: the output group
      shows the current colour texture. */
  method CurrentAfterReturnToSize() returns (shown: Texture, current: Texture)
    ensures shown == current
  {
    var blit := new BLIT(Texture(IntermediateSize(UVec2(64, 64)), 0));
    blit.UpdateOutputBindGroupCorrected(Texture(IntermediateSize(UVec2(128, 128)), 1));
    current := Texture(IntermediateSize(UVec2(64, 64)), 2);
    blit.UpdateOutputBindGroupCorrected(current);
    shown := blit.OutputBindGroup();
  }
}
