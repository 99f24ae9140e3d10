/** The temporal anti-aliasing upsampler (src/renderer/taa.rs). Two
    output-resolution textures take turns: each frame a compute pass reads
    the one written last frame as history and writes the other, which is
    then displayed. Textures are size-and-generation records and bind groups
    the records they were built from, so a group that still names a replaced
    allocation is visible as such. */
module Taa {
  import opened Gpu
  import Cyclic

  /** `create_taa_bind_group(history_view, output_view)`. */
  datatype TaaBindGroup = TaaBindGroup(history: Texture, output: Texture)

  /** The compute dispatch a frame records: the bind group it uses and the
      workgroup counts per axis. */
  datatype TaaPass = TaaPass(bindGroup: TaaBindGroup, workgroupsX: nat, workgroupsY: nat)

  /** Workgroups along an axis of `n` pixels, `n / 16` rounded up: enough
      16-wide groups to cover every pixel, and not one more. */
  function Workgroups(n: u32): (groups: nat)
    ensures groups * 16 >= n as int
    ensures (groups - 1) * 16 < n as int
  {
    (n as int + 15) / 16
  }

  /** Whether a texture has the width and height of `r`, the test before the
      lazy reallocation. */
  predicate Fits(t: Texture, r: UVec2) {
    t.size.width == r.x as int && t.size.height == r.y as int
  }

  class TAA {
    var outputResolution: UVec2
    const textures: array<Texture>
    const taaBindGroups: array<TaaBindGroup>
    const outputBindGroups: array<Texture>
    var historyTextureIndex: nat
    /** The generation the next allocated texture receives. */
    var nextGeneration: nat

    /** The index is 0 or 1; the two slots hold different allocations; output
        group `k` shows slot `k`, and TAA group `k` writes slot `1 - k`. */
    ghost predicate Valid()
      reads this, textures, taaBindGroups, outputBindGroups
    {
      textures.Length == 2 && taaBindGroups.Length == 2 && outputBindGroups.Length == 2 &&
      historyTextureIndex < 2 &&
      textures[0].generation < nextGeneration && textures[1].generation < nextGeneration &&
      textures[0].generation != textures[1].generation &&
      outputBindGroups[0] == textures[0] && outputBindGroups[1] == textures[1] &&
      taaBindGroups[0].output == textures[1] && taaBindGroups[1].output == textures[0]
    }

    /** TAA group `k` also reads the allocation now in slot `k`. */
    ghost predicate HistoryCurrent()
      requires Valid()
      reads this, textures, taaBindGroups, outputBindGroups
    {
      taaBindGroups[0].history == textures[0] && taaBindGroups[1].history == textures[1]
    }

    /** The state `TAA::new` leaves for `resolution`: two textures of that
        resolution; TAA group 0 reads texture 0 and writes texture 1, group 1
        the reverse; output group `k` shows texture `k`; history index 0. */
    ghost predicate Initial(resolution: UVec2)
      reads this, textures, taaBindGroups, outputBindGroups
    {
      outputResolution == resolution && historyTextureIndex == 0 && nextGeneration == 2 &&
      textures[..] == [Texture(IntermediateSize(resolution), 0), Texture(IntermediateSize(resolution), 1)] &&
      taaBindGroups[..] == [TaaBindGroup(textures[0], textures[1]), TaaBindGroup(textures[1], textures[0])] &&
      outputBindGroups[..] == textures[..]
    }

    /** `TAA::new`: the initial state at the output resolution. */
    constructor (resolution: UVec2)
      ensures Valid() && HistoryCurrent() && Initial(resolution)
      ensures fresh(textures) && fresh(taaBindGroups) && fresh(outputBindGroups)
    {
      var t0, t1 := Texture(IntermediateSize(resolution), 0), Texture(IntermediateSize(resolution), 1);
      outputResolution := resolution;
      textures := new Texture[2][t0, t1];
      taaBindGroups := new TaaBindGroup[2][TaaBindGroup(t0, t1), TaaBindGroup(t1, t0)];
      outputBindGroups := new Texture[2][t0, t1];
      historyTextureIndex := 0;
      nextGeneration := 2;
    }

    /** `resize` only records the resolution; textures are replaced lazily
        by the frames that follow. */
    method Resize(resolution: UVec2)
      requires Valid()
      modifies this
      ensures Valid()
      ensures outputResolution == resolution
      ensures historyTextureIndex == old(historyTextureIndex) && nextGeneration == old(nextGeneration)
    {
      outputResolution := resolution;
    }

    /** `output_bind_group`: the group showing the slot at the history index. */
    function OutputBindGroup(): (shown: Texture)
      requires Valid()
      reads this, textures, taaBindGroups, outputBindGroups
      ensures shown == textures[historyTextureIndex]
    {
      outputBindGroups[historyTextureIndex]
    }

    /** `render` as written: take the group at the current index, flip the
        index; if the slot now indexed does not have the output resolution,
        reallocate it and rebuild the taken group and that slot's output
        group. The group at the new index is left as it was. */
    method Render() returns (pass: TaaPass)
      requires Valid()
      modifies this, textures, taaBindGroups, outputBindGroups
      ensures Valid()
      ensures historyTextureIndex == Cyclic.Next(old(historyTextureIndex), 2)
      ensures outputResolution == old(outputResolution)
      ensures Fits(textures[historyTextureIndex], outputResolution)
      ensures var o, n := old(historyTextureIndex), historyTextureIndex;
        if Fits(old(textures[n]), outputResolution) then
          textures[..] == old(textures[..]) && taaBindGroups[..] == old(taaBindGroups[..]) &&
          outputBindGroups[..] == old(outputBindGroups[..]) && nextGeneration == old(nextGeneration)
        else
          nextGeneration == old(nextGeneration) + 1 &&
          textures[..] == old(textures[..])[n := Texture(IntermediateSize(outputResolution), old(nextGeneration))] &&
          taaBindGroups[..] == old(taaBindGroups[..])[o := TaaBindGroup(textures[o], textures[n])] &&
          outputBindGroups[..] == old(outputBindGroups[..])[n := textures[n]]
      ensures pass == TaaPass(taaBindGroups[old(historyTextureIndex)],
                              Workgroups(outputResolution.x), Workgroups(outputResolution.y))
      ensures pass.bindGroup.output == OutputBindGroup()
      ensures old(HistoryCurrent()) ==> pass.bindGroup.history == old(OutputBindGroup())
    {
      var o := historyTextureIndex;
      historyTextureIndex := Cyclic.Next(historyTextureIndex, 2);
      var n := historyTextureIndex;
      Cyclic.PingPong(o);
      if !Fits(textures[n], outputResolution) {
        textures[n] := Texture(IntermediateSize(outputResolution), nextGeneration);
        nextGeneration := nextGeneration + 1;
        taaBindGroups[o] := TaaBindGroup(textures[Cyclic.Next(n, 2)], textures[n]);
        outputBindGroups[n] := textures[n];
      }
      pass := TaaPass(taaBindGroups[o], Workgroups(outputResolution.x), Workgroups(outputResolution.y));
    }

    /** `render` with the reallocation also rebuilding the group at the new
        index, the other group that names the replaced slot. Every group then
        keeps reading the current allocations, and each frame reads as
        history exactly the texture the previous frame showed. */
    method RenderCorrected() returns (pass: TaaPass)
      requires Valid() && HistoryCurrent()
      modifies this, textures, taaBindGroups, outputBindGroups
      ensures Valid() && HistoryCurrent()
      ensures historyTextureIndex == Cyclic.Next(old(historyTextureIndex), 2)
      ensures outputResolution == old(outputResolution)
      ensures Fits(textures[historyTextureIndex], outputResolution)
      ensures var n := historyTextureIndex;
        if Fits(old(textures[n]), outputResolution) then
          textures[..] == old(textures[..]) && nextGeneration == old(nextGeneration)
        else
          nextGeneration == old(nextGeneration) + 1 &&
          textures[..] == old(textures[..])[n := Texture(IntermediateSize(outputResolution), old(nextGeneration))]
      ensures pass == TaaPass(TaaBindGroup(old(OutputBindGroup()), OutputBindGroup()),
                              Workgroups(outputResolution.x), Workgroups(outputResolution.y))
    {
      var o := historyTextureIndex;
      historyTextureIndex := Cyclic.Next(historyTextureIndex, 2);
      var n := historyTextureIndex;
      Cyclic.PingPong(o);
      if !Fits(textures[n], outputResolution) {
        textures[n] := Texture(IntermediateSize(outputResolution), nextGeneration);
        nextGeneration := nextGeneration + 1;
        taaBindGroups[o] := TaaBindGroup(textures[o], textures[n]);
        taaBindGroups[n] := TaaBindGroup(textures[n], textures[o]);
        outputBindGroups[n] := textures[n];
      }
      pass := TaaPass(taaBindGroups[o], Workgroups(outputResolution.x), Workgroups(outputResolution.y));
    }
  }

  /** A resize followed by three frames of `render` as written: the third
      frame reads as history the allocation slot 0 held before the resize,
      not the texture the second frame wrote and showed. */
  method StaleHistoryAfterResize() returns (second: TaaPass, third: TaaPass)
    ensures third.bindGroup.history != second.bindGroup.output
    ensures third.bindGroup.history == Texture(IntermediateSize(UVec2(64, 64)), 0)
    ensures second.bindGroup.output == Texture(IntermediateSize(UVec2(128, 128)), 3)
  {
    var taa := new TAA(UVec2(64, 64));
    taa.Resize(UVec2(128, 128));
    var first := taa.Render();
    second := taa.Render();
    third := taa.Render();
  }

  /** The same frames with the corrected `render`: the third frame reads the
      texture the second frame wrote. */
  method CurrentHistoryAfterResize() returns (second: TaaPass, third: TaaPass)
    ensures third.bindGroup.history == second.bindGroup.output
    ensures second.bindGroup.output == Texture(IntermediateSize(UVec2(128, 128)), 3)
  {
    var taa := new TAA(UVec2(64, 64));
    taa.Resize(UVec2(128, 128));
    var first := taa.RenderCorrected();
    second := taa.RenderCorrected();
    third := taa.RenderCorrected();
  }
}
