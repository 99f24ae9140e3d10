/** The GPU image of a shape (src/renderer/shape.rs): three groups of four
    32-bit words, the first holding the shape tag, the packed colour and the
    packed metallic/roughness bytes, the other two the geometry. */
module Shape {
  import opened Gpu

  /** `u32::from_le_bytes`: the first byte is the least significant. */
  function FromLeBytes(bytes: seq<u8>): (w: u32)
    requires |bytes| == 4
    ensures w as int < 0x100_0000 <==> bytes[3] == 0
  {
    (bytes[0] as int + 0x100 * bytes[1] as int + 0x1_0000 * bytes[2] as int
      + 0x100_0000 * bytes[3] as int) as u32
  }

  /** `u32::to_le_bytes`, the reading a consumer of the word applies. */
  function ToLeBytes(w: u32): (bytes: seq<u8>)
    ensures |bytes| == 4
  {
    var x := w as int;
    [(x % 0x100) as u8, (x / 0x100 % 0x100) as u8,
     (x / 0x1_0000 % 0x100) as u8, (x / 0x100_0000) as u8]
  }

  /** Reading the bytes of a packed word gives back the bytes packed. */
  lemma BytesRoundTrip(bytes: seq<u8>)
    requires |bytes| == 4
    ensures ToLeBytes(FromLeBytes(bytes)) == bytes
  {
    var x := FromLeBytes(bytes) as int;
    var b0, b1, b2, b3 := bytes[0] as int, bytes[1] as int, bytes[2] as int, bytes[3] as int;
    assert x == b0 + 0x100 * (b1 + 0x100 * (b2 + 0x100 * b3));
    DivModByte(x, b0, b1 + 0x100 * (b2 + 0x100 * b3));
    DivModByte(x / 0x100, b1, b2 + 0x100 * b3);
    DivModByte(x / 0x1_0000, b2, b3);
    DivDiv(x);
    var t := ToLeBytes(FromLeBytes(bytes));
    assert t[0] == bytes[0] && t[1] == bytes[1] && t[2] == bytes[2] && t[3] == bytes[3];
  }

  /** Packing the bytes of a word gives back the word. */
  lemma WordRoundTrip(w: u32)
    ensures FromLeBytes(ToLeBytes(w)) == w
  {
    var x := w as int;
    DivDiv(x);
    var q1, q2, q3 := x / 0x100, x / 0x1_0000, x / 0x100_0000;
    assert x == x % 0x100 + 0x100 * q1;
    assert q1 == q1 % 0x100 + 0x100 * q2;
    assert q2 == q2 % 0x100 + 0x100 * q3;
  }

  lemma DivModByte(x: int, lo: int, hi: int)
    requires 0 <= lo < 0x100 && 0 <= hi && x == lo + 0x100 * hi
    ensures x % 0x100 == lo && x / 0x100 == hi
  {
  }

  lemma DivDiv(x: int)
    requires 0 <= x
    ensures x / 0x100 / 0x100 == x / 0x1_0000
    ensures x / 0x1_0000 / 0x100 == x / 0x100_0000
  {
  }

  /** `Shape`: the kind tag written into the first word. */
  datatype ShapeKind = Sphere | RoundedCone

  /** `Shape::Sphere as u32` and `Shape::RoundedCone as u32`. */
  function Tag(kind: ShapeKind): (t: u32)
    ensures t < 2
  {
    match kind
    case Sphere => 0
    case RoundedCone => 1
  }

  /** The kind a tag word stands for, if any. */
  function KindOf(t: u32): (kind: Option<ShapeKind>)
    ensures kind.Some? <==> t < 2
  {
    if t == 0 then Some(Sphere) else if t == 1 then Some(RoundedCone) else None
  }

  /** Tags are decoded back to their kind, and no other word decodes. */
  lemma TagRoundTrip(kind: ShapeKind, t: u32)
    ensures KindOf(Tag(kind)) == Some(kind)
    ensures KindOf(t) == Some(kind) ==> Tag(kind) == t
  {
  }

  /** `RgbExt::to_u32`: the three channels, each converted to a byte by the
      (foreign) gamma encoder `gamma`, in the low three bytes; the top byte 0. */
  function ColorWord(color: Rgb, gamma: real -> u8): (w: u32)
    ensures w as int < 0x100_0000
    ensures ToLeBytes(w) == [gamma(color.r), gamma(color.g), gamma(color.b), 0]
  {
    var bytes := [gamma(color.r), gamma(color.g), gamma(color.b), 0];
    BytesRoundTrip(bytes);
    FromLeBytes(bytes)
  }

  /** The metallic and roughness bytes packed little-endian into the two low
      bytes of a word, the two high bytes 0. */
  function MetallicRoughnessWord(metallic: u8, roughness: u8): (w: u32)
    ensures w as int == metallic as int + 0x100 * roughness as int
    ensures w as int < 0x1_0000
    ensures ToLeBytes(w)[0] == metallic && ToLeBytes(w)[1] == roughness
  {
    var bytes := [metallic, roughness, 0, 0];
    BytesRoundTrip(bytes);
    FromLeBytes(bytes)
  }

  /** The twelve words of a `ShapeData` as a value, the form in which shapes
      are handed to the renderer and copied into its buffer. */
  datatype ShapeImage = ShapeImage(data0: seq<u32>, data1: seq<real>, data2: seq<real>)

  /** The image has the lengths of `ShapeData`'s three `[_; 4]` arrays. */
  predicate Sized(s: ShapeImage) {
    |s.data0| == 4 && |s.data1| == 4 && |s.data2| == 4
  }

  /** `ShapeData::default()`, the image `ShapeData::new()` also builds. */
  function DefaultImage(): (s: ShapeImage)
    ensures |s.data0| == 4 && |s.data1| == 4 && |s.data2| == 4
    ensures forall k :: 0 <= k < 4 ==> s.data0[k] == 0 && s.data1[k] == 0.0 && s.data2[k] == 0.0
  {
    ShapeImage([0, 0, 0, 0], [0.0, 0.0, 0.0, 0.0], [0.0, 0.0, 0.0, 0.0])
  }

  /** `ShapeData`: three fixed arrays of four words, updated in place. */
  class ShapeData {
    const data0: array<u32>
    const data1: array<real>
    const data2: array<real>

    ghost predicate Valid() {
      data0.Length == 4 && data1.Length == 4 && data2.Length == 4 && data1 != data2
    }

    /** The current twelve words. */
    function Image(): ShapeImage
      requires Valid()
      reads data0, data1, data2
    {
      ShapeImage(data0[..], data1[..], data2[..])
    }

    /** `ShapeData::new()`, which is `ShapeData::default()`: every word zero. */
    constructor ()
      ensures Valid() && fresh(data0) && fresh(data1) && fresh(data2)
      ensures Image() == DefaultImage()
    {
      data0 := new u32[4](_ => 0);
      data1 := new real[4](_ => 0.0);
      data2 := new real[4](_ => 0.0);
    }

    /** `update_sphere`: tag, colour and material into the first group, the
        centre and radius into the second; the last word of the first group
        and the third group keep whatever they held. */
    method UpdateSphere(position: Vec3, radius: real, color: Rgb, metallic: real, roughness: real,
                        gamma: real -> u8, linear: real -> u8)
      requires Valid()
      modifies data0, data1
      ensures Valid()
      ensures data0[..] == [Tag(Sphere), ColorWord(color, gamma),
                            MetallicRoughnessWord(linear(metallic), linear(roughness)), old(data0[3])]
      ensures data1[..] == [position.x, position.y, position.z, radius]
      ensures data2[..] == old(data2[..])
    {
      data0[0] := Tag(Sphere);
      data0[1] := ColorWord(color, gamma);
      data0[2] := MetallicRoughnessWord(linear(metallic), linear(roughness));
      data1[0], data1[1], data1[2], data1[3] := position.x, position.y, position.z, radius;
    }

    /** `update_rounded_cone`: tag, colour and material into the first group,
        end `a` and its radius into the second, end `b` and its radius into
        the third; the last word of the first group is kept. */
    method UpdateRoundedCone(positionA: Vec3, radiusA: real, positionB: Vec3, radiusB: real,
                             color: Rgb, metallic: real, roughness: real,
                             gamma: real -> u8, linear: real -> u8)
      requires Valid()
      modifies data0, data1, data2
      ensures Valid()
      ensures data0[..] == [Tag(RoundedCone), ColorWord(color, gamma),
                            MetallicRoughnessWord(linear(metallic), linear(roughness)), old(data0[3])]
      ensures data1[..] == [positionA.x, positionA.y, positionA.z, radiusA]
      ensures data2[..] == [positionB.x, positionB.y, positionB.z, radiusB]
    {
      data0[0] := Tag(RoundedCone);
      data0[1] := ColorWord(color, gamma);
      data0[2] := MetallicRoughnessWord(linear(metallic), linear(roughness));
      data1[0], data1[1], data1[2], data1[3] := positionA.x, positionA.y, positionA.z, radiusA;
      data2[0], data2[1], data2[2], data2[3] := positionB.x, positionB.y, positionB.z, radiusB;
    }
  }

  /** `ShapesConfig`, with the `num_bvh_nodes` field the renderer writes. */
  datatype ShapesConfig = ShapesConfig(numShapes: u32, numBvhNodes: u32)

  /** The configuration describing `numShapes` shapes and `numNodes` nodes;
      the counts are stored as `len() as u32`. */
  function ConfigFor(numShapes: nat, numNodes: nat): (c: ShapesConfig)
    requires numShapes <= U32_MAX && numNodes <= U32_MAX
    ensures c.numShapes as int == numShapes && c.numBvhNodes as int == numNodes
  {
    ShapesConfig(numShapes as u32, numNodes as u32)
  }

  /** `ShapesConfig::default()`, and the all-zero configuration the renderer
      starts from. */
  function DefaultShapesConfig(): (c: ShapesConfig)
    ensures c.numShapes == 0
  {
    ShapesConfig(0, 0)
  }

  /** The default configuration is the one describing an empty scene. */
  lemma DefaultDescribesNothing()
    ensures DefaultShapesConfig() == ConfigFor(0, 0)
  {
  }
}
