/** The flat BVH node the geometry and lighting shaders walk
    (src/renderer/mod.rs, the closure passed to `flatten_custom`). The tree
    itself is built by the `bvh` crate, which is not part of this model: the
    mapping below receives its flattened `(aabb, entry, exit, shape)` tuples. */
module Bvh {
  import opened Gpu

  const I32_MIN: int := -0x8000_0000

  /** One tuple handed to the flattening closure. `entry` is `u32::MAX` for a
      leaf, whose `shape` is then the index of the shape it holds. */
  datatype FlatEntry = FlatEntry(aabbMin: Vec3, aabbMax: Vec3, entry: u32, exit: u32, shape: u32)

  /** `ShapeBVHNode`: the box as centre and half extent, and signed links. */
  datatype ShapeBVHNode = ShapeBVHNode(aabbPos: Vec3, entry: i32, aabbRad: Vec3, exit: i32)

  /** `ShapeBVHNode::default()`, all zeros. */
  function DefaultNode(): (n: ShapeBVHNode)
    ensures n.entry == 0 && n.exit == 0
  {
    ShapeBVHNode(Vec3(0.0, 0.0, 0.0), 0, Vec3(0.0, 0.0, 0.0), 0)
  }

  /** `x as i32` for a `u32`: the same bits read as two's complement. */
  function AsI32(x: u32): (y: i32)
    ensures y as int == x as int || y as int == x as int - 0x1_0000_0000
    ensures 0 <= y as int <==> x as int < 0x8000_0000
  {
    if x as int < 0x8000_0000 then x as int as i32 else (x as int - 0x1_0000_0000) as i32
  }

  /** Negation of an `i32` as a release build performs it: `-i32::MIN`
      wraps to `i32::MIN`. */
  function WrappingNeg(x: i32): (y: i32)
    ensures x as int != I32_MIN ==> y as int == -(x as int)
    ensures x as int == I32_MIN ==> y == x
  {
    if x as int == I32_MIN then x else (-(x as int)) as i32
  }

  /** The centre and the half extent of the box from `a` to `b`. */
  function Mid(a: Vec3, b: Vec3): Vec3 {
    Vec3((a.x + b.x) * 0.5, (a.y + b.y) * 0.5, (a.z + b.z) * 0.5)
  }

  function HalfExtent(a: Vec3, b: Vec3): Vec3 {
    Vec3((b.x - a.x) * 0.5, (b.y - a.y) * 0.5, (b.z - a.z) * 0.5)
  }

  function Add(a: Vec3, b: Vec3): Vec3 {
    Vec3(a.x + b.x, a.y + b.y, a.z + b.z)
  }

  function Sub(a: Vec3, b: Vec3): Vec3 {
    Vec3(a.x - b.x, a.y - b.y, a.z - b.z)
  }

  /** The flattening closure: the box as centre and half extent; a leaf's
      entry becomes `-(shape as i32)`, arithmetic negation, any other entry
      and every exit are cast to `i32`. */
  function ToNode(e: FlatEntry): (n: ShapeBVHNode)
    ensures n.exit == AsI32(e.exit)
    ensures e.entry as int == U32_MAX && e.shape as int < 0x8000_0000 ==> n.entry as int <= 0
    ensures e.entry as int != U32_MAX && e.entry as int < 0x8000_0000 ==> n.entry as int >= 0
  {
    ShapeBVHNode(
      Mid(e.aabbMin, e.aabbMax),
      if e.entry as int == U32_MAX then WrappingNeg(AsI32(e.shape)) else AsI32(e.entry),
      HalfExtent(e.aabbMin, e.aabbMax),
      AsI32(e.exit))
  }

  /** The box is recovered from the node: centre plus half extent is the
      maximum corner, centre minus half extent the minimum corner. */
  lemma BoxRecovered(e: FlatEntry)
    ensures Add(ToNode(e).aabbPos, ToNode(e).aabbRad) == e.aabbMax
    ensures Sub(ToNode(e).aabbPos, ToNode(e).aabbRad) == e.aabbMin
  {
  }

  /** A leaf holding shape `s` (below 2^31) is stored as the entry `-s`,
      never positive; the shape index is its negation. */
  lemma LeafEntry(e: FlatEntry)
    requires e.entry as int == U32_MAX && e.shape as int < 0x8000_0000
    ensures ToNode(e).entry as int == -(e.shape as int) && ToNode(e).entry as int <= 0
  {
  }

  /** An interior entry below 2^31 is copied unchanged, so it is never
      negative; the exit is copied likewise, and `u32::MAX` becomes -1. */
  lemma LinksCopied(e: FlatEntry)
    ensures e.entry as int != U32_MAX && e.entry as int < 0x8000_0000 ==> ToNode(e).entry as int == e.entry as int
    ensures e.exit as int < 0x8000_0000 ==> ToNode(e).exit as int == e.exit as int
    ensures e.exit as int == U32_MAX ==> ToNode(e).exit as int == -1
  {
  }

  /** Arithmetic negation makes a leaf holding shape 0 indistinguishable
      from an interior node whose entry is 0: both store entry 0. */
  lemma LeafZeroMeetsEntryZero(aabbMin: Vec3, aabbMax: Vec3, exit: u32)
    ensures ToNode(FlatEntry(aabbMin, aabbMax, U32_MAX as u32, exit, 0)).entry
         == ToNode(FlatEntry(aabbMin, aabbMax, 0, exit, 0)).entry
  {
  }

  /** Exactly one leaf, the one with shape `2^31`, takes the wrap-around of
      the negation and stores `i32::MIN`. Shape indices stay far below that
      while the shape buffer holds at most 4096 shapes. */
  lemma NegationWraps()
    ensures ToNode(FlatEntry(Vec3(0.0, 0.0, 0.0), Vec3(0.0, 0.0, 0.0), U32_MAX as u32, 0, 0x8000_0000)).entry as int == I32_MIN
  {
  }

  /** `flatten_custom` with the closure: one node per tuple, in order. */
  function FlattenNodes(entries: seq<FlatEntry>): (nodes: seq<ShapeBVHNode>)
    ensures |nodes| == |entries|
    ensures forall k :: 0 <= k < |entries| ==> nodes[k] == ToNode(entries[k])
  {
    if entries == [] then [] else [ToNode(entries[0])] + FlattenNodes(entries[1..])
  }
}
