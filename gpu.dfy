/** Value records shared by every pass: fixed-width integers, 2-D vectors and
    the size-and-identity record that stands for a GPU texture. Textures are
    never modelled by their texels: a texture is its extent plus a generation
    number, and a bind group is modelled by the texture record(s) it names, so
    the verifier can tell which allocation a pass reads or writes. */
module Gpu {

  /** Rust `u8`. */
  newtype u8 = x: int | 0 <= x < 0x100

  /** Rust `u32`. */
  newtype u32 = x: int | 0 <= x < 0x1_0000_0000

  const U32_MAX: int := 0xFFFF_FFFF

  /** Rust `i32`. */
  newtype i32 = x: int | -0x8000_0000 <= x < 0x8000_0000

  /** `glam::UVec2` / `cgmath::Vector2<u32>`. */
  datatype UVec2 = UVec2(x: u32, y: u32)

  /** `Vec2` of `f32`, over the reals. */
  datatype Vec2 = Vec2(x: real, y: real)

  /** `Vec3` of `f32`, over the reals. */
  datatype Vec3 = Vec3(x: real, y: real, z: real)

  /** An `[f32; 3]` colour in linear space, over the reals. */
  datatype Rgb = Rgb(r: real, g: real, b: real)

  datatype Option<T> = None | Some(value: T)

  /** `wgpu::Extent3d`. */
  datatype Extent3d = Extent3d(width: int, height: int, depthOrArrayLayers: int)

  /** A texture allocation: its size and the generation number its owner
      gave it when it was created. Two records with different generations
      are different allocations, even when their sizes agree. */
  datatype Texture = Texture(size: Extent3d, generation: nat)

  /** wgpu refuses to create a texture with a zero extent, so every
      resolution that reaches a texture allocation is positive. */
  predicate Positive(r: UVec2) {
    r.x > 0 && r.y > 0
  }

  /** The extent `texture::Texture::new_intermediate` gives a texture of
      the requested resolution: one layer deep. */
  function IntermediateSize(r: UVec2): (e: Extent3d)
    ensures e.width == r.x as int && e.height == r.y as int && e.depthOrArrayLayers == 1
  {
    Extent3d(r.x as int, r.y as int, 1)
  }

  /** The view width that gives a view of the given height the aspect ratio
      `rx : ry`, computed as height times `rx` over `ry`. */
  function AspectWidth(height: real, rx: real, ry: real): (w: real)
    requires ry != 0.0
    ensures w * ry == height * rx
  {
    height * rx / ry
  }

  /** `queue.write_buffer(buffer, 0, data)`: `data` overwrites the front of
      the buffer, which keeps its length and the rest of its contents. */
  function WritePrefix<T>(buffer: seq<T>, data: seq<T>): (written: seq<T>)
    requires |data| <= |buffer|
    ensures |written| == |buffer|
    ensures written[..|data|] == data && written[|data|..] == buffer[|data|..]
  {
    data + buffer[|data|..]
  }
}
