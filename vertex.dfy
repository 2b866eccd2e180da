/**
 * Vertex attribute descriptions of cushy-gl/src/vertex.rs, and the attribute
 * lists of the vertex types of cushy-gl and of the quad renderer.
 */
module Vertex {

  const GL_BYTE: nat := 0x1400
  const GL_UNSIGNED_BYTE: nat := 0x1401
  const GL_INT: nat := 0x1404
  const GL_UNSIGNED_INT: nat := 0x1405
  const GL_FLOAT: nat := 0x1406
  const GL_FALSE: nat := 0
  const GL_TRUE: nat := 1

  datatype VertexAttrib =
    | Float1(norm: bool) | Float2(norm: bool) | Float3(norm: bool) | Float4(norm: bool)
    | Byte4 | UByte4
    | Int1 | Int2 | Int3 | Int4
    | UInt1 | UInt2 | UInt3 | UInt4

  /** `gl_data`: GL component type, component count, normalised flag and size in bytes. */
  datatype GlData = GlData(typ: nat, count: nat, norm: nat, size: nat)

  function GlBool(b: bool): nat { if b then GL_TRUE else GL_FALSE }

  /** Bytes per component of a GL component type. */
  function ComponentBytes(typ: nat): nat {
    if typ == GL_BYTE || typ == GL_UNSIGNED_BYTE then 1 else 4
  }

  /**
   * The size is the component count times the component width (one byte for
   * `Byte4`/`UByte4`, four otherwise), so always a multiple of four here.
   */
  function GlDataOf(a: VertexAttrib): (g: GlData)
    ensures 1 <= g.count <= 4 && g.size == g.count * ComponentBytes(g.typ)
    ensures g.size % 4 == 0 && 4 <= g.size <= 16
    ensures a.Float1? || a.Float2? || a.Float3? || a.Float4? ==>
      g.typ == GL_FLOAT && g.norm == GlBool(a.norm)
    ensures !(a.Float1? || a.Float2? || a.Float3? || a.Float4?) ==> g.norm == GL_TRUE
  {
    match a
    case Float1(n) => GlData(GL_FLOAT, 1, GlBool(n), 4)
    case Float2(n) => GlData(GL_FLOAT, 2, GlBool(n), 8)
    case Float3(n) => GlData(GL_FLOAT, 3, GlBool(n), 12)
    case Float4(n) => GlData(GL_FLOAT, 4, GlBool(n), 16)
    case Byte4 => GlData(GL_BYTE, 4, GL_TRUE, 4)
    case UByte4 => GlData(GL_UNSIGNED_BYTE, 4, GL_TRUE, 4)
    case Int1 => GlData(GL_INT, 1, GL_TRUE, 4)
    case Int2 => GlData(GL_INT, 2, GL_TRUE, 8)
    case Int3 => GlData(GL_INT, 3, GL_TRUE, 12)
    case Int4 => GlData(GL_INT, 4, GL_TRUE, 16)
    case UInt1 => GlData(GL_UNSIGNED_INT, 1, GL_TRUE, 4)
    case UInt2 => GlData(GL_UNSIGNED_INT, 2, GL_TRUE, 8)
    case UInt3 => GlData(GL_UNSIGNED_INT, 3, GL_TRUE, 12)
    case UInt4 => GlData(GL_UNSIGNED_INT, 4, GL_TRUE, 16)
  }

  /**
   * What the `Vertex` trait tells about a vertex type: its attribute list, its
   * `size_of` (four bytes per `f32`/`u32` field under `repr(C, align(4))`) and its
   * instancing divisor (`divisor()` defaults to 0 and no type here overrides it).
   */
  datatype Layout = Layout(attributes: seq<VertexAttrib>, fieldCount: nat, divisor: nat) {
    function Stride(): nat { 4 * fieldCount }
  }

  /** Sum of the byte sizes of a list of attributes. */
  function SizeSum(attrs: seq<VertexAttrib>): (n: nat)
    ensures attrs != [] ==> n >= 4
  {
    if attrs == [] then 0 else GlDataOf(attrs[0]).size + SizeSum(attrs[1..])
  }

  /** Every offset in a list of attributes stays four-byte aligned. */
  lemma {:induction false} SizeSumAligned(attrs: seq<VertexAttrib>)
    ensures SizeSum(attrs) % 4 == 0
    ensures 4 * |attrs| <= SizeSum(attrs) <= 16 * |attrs|
  {
    if attrs != [] {
      SizeSumAligned(attrs[1..]);
    }
  }

  /** Summing over a concatenation. */
  lemma {:induction false} SizeSumAppend(a: seq<VertexAttrib>, b: seq<VertexAttrib>)
    ensures SizeSum(a + b) == SizeSum(a) + SizeSum(b)
  {
    if a == [] {
      assert a + b == b;
    } else {
      assert (a + b)[1..] == a[1..] + b;
      SizeSumAppend(a[1..], b);
    }
  }

  /** A layout whose attributes cover exactly its fields, byte for byte. */
  predicate Consistent(l: Layout) {
    SizeSum(l.attributes) == l.Stride()
  }

  /** `PosVertex`: two `f32` fields, one `Float2`. */
  function PosVertex(): Layout { Layout([Float2(false)], 2, 0) }

  /** `ColorVertex`: one `u32` field, one `UByte4`. */
  function ColorVertex(): Layout { Layout([UByte4], 1, 0) }

  /** `TexCoordVertex`: two `f32` fields, one `Float2`. */
  function TexCoordVertex(): Layout { Layout([Float2(false)], 2, 0) }

  /** `QuadVertexCpu` (cushy-gfx/src/quad.rs): `vert: [f32; 3]`, `col`, `u`, `v`. */
  function QuadVertexCpu(): Layout { Layout([Float3(false), UByte4, Float2(false)], 6, 0) }

  /** `QuadVertexGpu` (cushy-gfx/src/quad.rs): eleven `f32` fields and one `u32`. */
  function QuadVertexGpu(): Layout {
    Layout([Float2(false), Float1(false), Float2(false), Float2(false), Float2(false), UByte4, Float2(false)], 12, 0)
  }

  /** Every declared layout matches its struct: the attribute sizes add up to `size_of`. */
  lemma LayoutsConsistent()
    ensures Consistent(PosVertex()) && PosVertex().Stride() == 8
    ensures Consistent(ColorVertex()) && ColorVertex().Stride() == 4
    ensures Consistent(TexCoordVertex()) && TexCoordVertex().Stride() == 8
    ensures Consistent(QuadVertexCpu()) && QuadVertexCpu().Stride() == 24
    ensures Consistent(QuadVertexGpu()) && QuadVertexGpu().Stride() == 48
    ensures PosVertex().divisor == 0 && QuadVertexCpu().divisor == 0 && QuadVertexGpu().divisor == 0
  {
    var g := QuadVertexGpu().attributes;
    assert SizeSum(g[6..]) == 8;
    assert SizeSum(g[5..]) == 12;
    assert SizeSum(g[4..]) == 20;
    assert SizeSum(g[3..]) == 28;
    assert SizeSum(g[2..]) == 36;
    assert SizeSum(g[1..]) == 40;
    var c := QuadVertexCpu().attributes;
    assert SizeSum(c[2..]) == 8;
    assert SizeSum(c[1..]) == 12;
  }
}
