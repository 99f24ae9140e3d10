/** The signed-distance-field store (src/sdf.rs): two field textures used
    in ping-pong. An edit draws into one texture while sampling the other,
    then makes the texture just drawn the current one. The pipelines replace
    every texel they draw, so what a texture holds is modelled by how it was
    produced: the buffer it was drawn from and the edit applied, not texel
    values, which the shaders compute. */
module Sdf {
  import opened Gpu
  import Cyclic

  /** The edit uniforms. */
  datatype SdfUniforms = SdfUniforms(worldPos: Vec2, worldSize: Vec2, invWorldSize: Vec2, radius: real, smoothness: real)

  /** `Uniforms::default()`: the world-size inverse consistent with the
      world size, a brush of radius 10 and smoothness 1 at the origin. */
  function DefaultUniforms(): (u: SdfUniforms)
    ensures u.invWorldSize.x * u.worldSize.x == 1.0 && u.invWorldSize.y * u.worldSize.y == 1.0
    ensures u.worldPos == Vec2(0.0, 0.0) && u.radius == 10.0 && u.smoothness == 1.0
  {
    SdfUniforms(Vec2(0.0, 0.0), Vec2(1.0, 1.0), Vec2(1.0, 1.0), 10.0, 1.0)
  }

  /** `pipeline` (used by `add`) and `subtract_pipeline`. */
  datatype Pipeline = AddPipeline | SubtractPipeline

  /** One edit: the pipeline drawn with and the uniforms it saw. */
  datatype Edit = Edit(pipeline: Pipeline, uniforms: SdfUniforms)

  /** The contents of a field texture, by provenance. */
  datatype Field =
    | Undefined
      /** Cleared to the length of the texture's size vector. */
    | ClearedToDiagonal(size: UVec2)
      /** Drawn by `edit` while sampling a texture holding `source`. */
    | Drawn(source: Field, edit: Edit)

  /** The field after applying `edits`, in order, to `start`. */
  function Replay(start: Field, edits: seq<Edit>): Field
    decreases |edits|
  {
    if edits == [] then start
    else Drawn(Replay(start, edits[..|edits| - 1]), edits[|edits| - 1])
  }

  /** The edits a field went through, oldest first ... */
  function EditsOf(f: Field): seq<Edit> {
    match f
    case Drawn(source, edit) => EditsOf(source) + [edit]
    case _ => []
  }

  /** ... and where it started. */
  function Origin(f: Field): Field {
    match f
    case Drawn(source, _) => Origin(source)
    case _ => f
  }

  /** The current field determines the whole edit history: a field replayed
      from a cleared texture gives back its start and exactly the edits
      applied, in order, none lost or repeated. */
  lemma {:induction false} ReplayRecoverable(size: UVec2, edits: seq<Edit>)
    ensures Origin(Replay(ClearedToDiagonal(size), edits)) == ClearedToDiagonal(size)
    ensures EditsOf(Replay(ClearedToDiagonal(size), edits)) == edits
    decreases |edits|
  {
    if edits != [] {
      var front := edits[..|edits| - 1];
      ReplayRecoverable(size, front);
      assert front + [edits[|edits| - 1]] == edits;
    }
  }

  /** The record of one edit pass: the pipeline, the texture sampled through
      the bind group of the pre-edit index, and the texture drawn into. */
  datatype EditPass = EditPass(pipeline: Pipeline, read: Texture, target: Texture)

  class SDF {
    /** The texture size. */
    const size: UVec2
    const textures: seq<Texture>
    /** Bind group `k` samples texture `k`. */
    const sdfBindGroups: seq<Texture>
    /** What each texture holds. */
    ghost var contents: seq<Field>
    var uniforms: SdfUniforms
    var textureIndex: nat
    /** Every edit applied since construction, oldest first. */
    ghost var edits: seq<Edit>

    /** The index is 0 or 1, the two textures are different allocations,
        bind group `k` samples texture `k`, and the current texture holds
        the cleared field with every edit so far applied in order. */
    ghost predicate Valid()
      reads this
    {
      |textures| == 2 && |sdfBindGroups| == 2 && |contents| == 2 && textureIndex < 2 &&
      textures[0].generation != textures[1].generation &&
      sdfBindGroups == textures &&
      contents[textureIndex] == Replay(ClearedToDiagonal(size), edits)
    }

    /** `output_bind_group`: the group of the current index. */
    function OutputBindGroup(): (shown: Texture)
      requires Valid()
      reads this
      ensures shown == textures[textureIndex]
    {
      sdfBindGroups[textureIndex]
    }

    /** `SDF::new`: two textures of the given size, texture 0 cleared, index
        0, default uniforms with the world size and its inverse. */
    constructor (size: UVec2, worldSize: Vec2)
      requires worldSize.x != 0.0 && worldSize.y != 0.0
      ensures Valid()
      ensures this.size == size
      ensures textures == [Texture(IntermediateSize(size), 0), Texture(IntermediateSize(size), 1)]
      ensures contents == [ClearedToDiagonal(size), Undefined]
      ensures textureIndex == 0 && edits == []
      ensures uniforms.worldSize == worldSize
      ensures uniforms.invWorldSize.x * worldSize.x == 1.0 && uniforms.invWorldSize.y * worldSize.y == 1.0
      ensures uniforms.worldPos == DefaultUniforms().worldPos
      ensures uniforms.radius == DefaultUniforms().radius && uniforms.smoothness == DefaultUniforms().smoothness
    {
      this.size := size;
      textures := [Texture(IntermediateSize(size), 0), Texture(IntermediateSize(size), 1)];
      sdfBindGroups := [Texture(IntermediateSize(size), 0), Texture(IntermediateSize(size), 1)];
      contents := [ClearedToDiagonal(size), Undefined];
      textureIndex := 0;
      edits := [];
      uniforms := DefaultUniforms().(worldSize := worldSize, invWorldSize := Vec2(1.0 / worldSize.x, 1.0 / worldSize.y));
    }

    /** The body `add` and `subtract` share, drawn with `pipeline`. */
    method Stamp(pipeline: Pipeline, mouse: Vec2, cursorSize: real) returns (pass: EditPass)
      requires Valid()
      modifies this
      ensures Valid()
      ensures textureIndex == Cyclic.Next(old(textureIndex), 2)
      ensures uniforms == old(uniforms).(worldPos := mouse, radius := 0.25 * cursorSize, smoothness := 0.25 * cursorSize)
      ensures edits == old(edits) + [Edit(pipeline, uniforms)]
      ensures contents == old(contents)[textureIndex := Drawn(old(contents[textureIndex]), Edit(pipeline, uniforms))]
      ensures pass == EditPass(pipeline, old(OutputBindGroup()), OutputBindGroup())
      ensures pass.read != pass.target
    {
      uniforms := uniforms.(worldPos := mouse, radius := 0.25 * cursorSize, smoothness := 0.25 * cursorSize);
      var read := sdfBindGroups[textureIndex];
      ghost var source := contents[textureIndex];
      Cyclic.PingPong(textureIndex);
      textureIndex := Cyclic.Next(textureIndex, 2);
      var edit := Edit(pipeline, uniforms);
      contents := contents[textureIndex := Drawn(source, edit)];
      edits := edits + [edit];
      assert edits[..|edits| - 1] == old(edits);
      pass := EditPass(pipeline, read, textures[textureIndex]);
    }

    /** `add`: sets the edit uniforms from the cursor, draws the union
        stamp from the current texture into the other one, and makes that
        one current. */
    method Add(mouse: Vec2, cursorSize: real) returns (pass: EditPass)
      requires Valid()
      modifies this
      ensures Valid()
      ensures textureIndex == Cyclic.Next(old(textureIndex), 2)
      ensures uniforms == old(uniforms).(worldPos := mouse, radius := 0.25 * cursorSize, smoothness := 0.25 * cursorSize)
      ensures edits == old(edits) + [Edit(AddPipeline, uniforms)]
      ensures contents == old(contents)[textureIndex := Drawn(old(contents[textureIndex]), Edit(AddPipeline, uniforms))]
      ensures pass == EditPass(AddPipeline, old(OutputBindGroup()), OutputBindGroup())
      ensures pass.read != pass.target
    {
      pass := Stamp(AddPipeline, mouse, cursorSize);
    }

    /** `subtract`: the same state change as `add`, drawn with the
        subtracting pipeline. */
    method Subtract(mouse: Vec2, cursorSize: real) returns (pass: EditPass)
      requires Valid()
      modifies this
      ensures Valid()
      ensures textureIndex == Cyclic.Next(old(textureIndex), 2)
      ensures uniforms == old(uniforms).(worldPos := mouse, radius := 0.25 * cursorSize, smoothness := 0.25 * cursorSize)
      ensures edits == old(edits) + [Edit(SubtractPipeline, uniforms)]
      ensures contents == old(contents)[textureIndex := Drawn(old(contents[textureIndex]), Edit(SubtractPipeline, uniforms))]
      ensures pass == EditPass(SubtractPipeline, old(OutputBindGroup()), OutputBindGroup())
      ensures pass.read != pass.target
    {
      pass := Stamp(SubtractPipeline, mouse, cursorSize);
    }
  }

  /** Two edits of any kinds from a fresh store: the index is back at 0,
      the second edit samples the texture the first drew into, and draws
      into the one the first sampled. */
  method TwoEdits(first: Pipeline, second: Pipeline, at: Vec2, cursorSize: real)
    returns (pass1: EditPass, pass2: EditPass, index: nat)
    ensures index == 0
    ensures pass2.read == pass1.target && pass2.target == pass1.read
  {
    var store := new SDF(UVec2(256, 256), Vec2(100.0, 100.0));
    pass1 := store.Stamp(first, at, cursorSize);
    pass2 := store.Stamp(second, at, cursorSize);
    index := store.textureIndex;
  }
}
